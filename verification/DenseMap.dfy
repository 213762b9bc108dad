/**
 * Segmented insertion-ordered storage for dense 128-bit keys.
 *
 * A map keeps its values in a deque of segments.  Segment `i` holds the retained keys of
 * one block of `capacity` consecutive keys, so that an exact lookup is one division.  The
 * first segment may start inside its block, because a prefix was removed or because the
 * map was created (or emptied) at an unaligned key.
 */
module DenseMap {
  import opened Machine
  import opened Wrappers

  // Keys are 128-bit, counts 64-bit.  Every key and count below has one of these types, so
  // the verifier checks that no addition or subtraction leaves its range.
  const KEY_LIMIT: int := 0x1_0000_0000_0000_0000_0000_0000_0000_0000
  type Key = x: int | 0 <= x < KEY_LIMIT

  datatype Segment<T> = Segment(firstKey: Key, values: seq<T>)

  datatype InsertError<T> =
    | OutOfOrder(expected: Key, actual: Key, value: T)
    | KeySpaceExhausted(value: T)
    | CapacityExhausted(value: T)

  datatype Ordering = Less | Equal | Greater

  // ---------------------------------------------------------------- segment layout

  function EndKey<T>(s: Segment<T>): int {
    s.firstKey + |s.values|
  }

  /** All retained values in key order. */
  function Flatten<T>(segments: seq<Segment<T>>): seq<T> {
    if segments == [] then [] else segments[0].values + Flatten(segments[1..])
  }

  /**
   * `block` numbers the keys: it never decreases and grows by at most one per key.  The
   * map's own numbering is division by the segment capacity; nothing below needs more.
   */
  ghost predicate Staircase(block: int -> int) {
    forall x :: 0 <= x ==> StepAt(block, x)
  }

  ghost predicate StepAt(block: int -> int, x: int) {
    block(x) <= block(x + 1) <= block(x) + 1
  }

  function SegmentNumber(key: int, capacity: int): (r: int)
    requires capacity > 0
    ensures key >= 0 ==> 0 <= r <= key
  {
    DivBound(key, capacity);
    key / capacity
  }

  /** `block` is the numbering of a map with this segment capacity. */
  ghost predicate Numbers(block: Numbering, capacity: int) {
    && capacity > 0
    && forall x {:trigger SegmentNumber(x, capacity)} :: 0 <= x ==> SegmentNumber(x, capacity) == block(x)
  }

  type Numbering = block: int -> int | Staircase(block) ghost witness (x => 0)

  ghost function NumberingOf(capacity: int): (block: Numbering)
    requires capacity > 0
    ensures Numbers(block, capacity)
  {
    var f := x => if x >= 0 then SegmentNumber(x, capacity) else 0;
    assert Staircase(f) by {
      forall x | 0 <= x ensures StepAt(f, x) {
        DivStep(x, capacity);
      }
    }
    f
  }

  /** Segment `s` is nonempty and lies inside one block of keys. */
  ghost predicate InOneBlock<T>(block: Numbering, s: Segment<T>) {
    s.values != [] && block(EndKey(s) - 1) == block(s.firstKey)
  }

  /**
   * The alignment invariant: segments tile [first, next) without gaps, each inside one
   * block, and consecutive segments are consecutive blocks.
   */
  ghost predicate Layout<T>(block: Numbering, first: int, next: int, segments: seq<Segment<T>>)
    decreases |segments|
  {
    if segments == [] then first == next
    else
      && segments[0].firstKey == first
      && InOneBlock(block, segments[0])
      && (segments[1..] != [] ==> block(EndKey(segments[0])) == block(first) + 1)
      && Layout(block, EndKey(segments[0]), next, segments[1..])
  }

  lemma MulCancel(a: int, b: int, d: int)
    requires d > 0 && a * d < b * d
    ensures a < b
  {
  }

  lemma MulAtLeast(a: int, d: int)
    requires a >= 0 && d > 0
    ensures a * d >= a
  {
  }

  lemma DivBound(x: int, d: int)
    requires d > 0
    ensures x >= 0 ==> 0 <= x / d <= x
  {
    if x >= 0 {
      assert (x / d) * d <= x < (x / d + 1) * d;
      MulCancel(-1, x / d, d);
      MulAtLeast(x / d, d);
    }
  }

  lemma DivMonotone(x: int, y: int, d: int)
    requires 0 <= x <= y && d > 0
    ensures x / d <= y / d
  {
    assert (x / d) * d <= x <= y < (y / d + 1) * d;
    MulCancel(x / d, y / d + 1, d);
  }

  lemma DivStep(x: int, d: int)
    requires 0 <= x && d > 0
    ensures x / d <= (x + 1) / d <= x / d + 1
  {
    DivMonotone(x, x + 1, d);
    assert ((x + 1) / d) * d <= x + 1 <= (x / d + 1) * d < (x / d + 2) * d;
    MulCancel((x + 1) / d, x / d + 2, d);
  }

  lemma {:induction false} StaircaseMonotone(block: Numbering, x: int, y: int)
    requires 0 <= x <= y
    ensures block(x) <= block(y)
    decreases y - x
  {
    if x < y {
      StaircaseMonotone(block, x, y - 1);
      assert StepAt(block, y - 1);
    }
  }

  /** A layout holds exactly one value for each key of [first, next). */
  lemma {:induction false} LayoutLength<T>(block: Numbering, first: int, next: int, segments: seq<Segment<T>>)
    requires Layout(block, first, next, segments)
    ensures |Flatten(segments)| == next - first >= |segments|
    ensures segments == [] <==> first == next
    decreases |segments|
  {
    if segments != [] {
      LayoutLength(block, EndKey(segments[0]), next, segments[1..]);
    }
  }

  /** What a nonempty layout says about its first segment and about the rest. */
  lemma LayoutFront<T>(block: Numbering, first: int, next: int, segments: seq<Segment<T>>)
    requires Layout(block, first, next, segments) && segments != []
    ensures segments[0].firstKey == first && segments[0].values != []
    ensures EndKey(segments[0]) <= next
    ensures Layout(block, EndKey(segments[0]), next, segments[1..])
    ensures Flatten(segments) == segments[0].values + Flatten(segments[1..])
    ensures |Flatten(segments[1..])| == next - EndKey(segments[0])
  {
    LayoutLength(block, EndKey(segments[0]), next, segments[1..]);
  }

  /**
   * The heart of the index: for every retained key, the block number of the key names the
   * one segment that holds it, and the offset in that segment names the value.
   */
  lemma {:induction false} Locate<T>(
    block: Numbering, first: int, next: int, segments: seq<Segment<T>>, key: int)
    requires Layout(block, first, next, segments) && first <= key < next
    ensures |Flatten(segments)| == next - first
    ensures 0 <= block(key) - block(first) < |segments| <= next - first
    ensures var s := segments[block(key) - block(first)];
            && first <= s.firstKey <= key < EndKey(s) <= next
            && Flatten(segments)[key - first] == s.values[key - s.firstKey]
    decreases |segments|
  {
    LayoutLength(block, first, next, segments);
    var head := segments[0];
    LayoutLength(block, EndKey(head), next, segments[1..]);
    if key < EndKey(head) {
      StaircaseMonotone(block, first, key);
      StaircaseMonotone(block, key, EndKey(head) - 1);
    } else {
      Locate(block, EndKey(head), next, segments[1..], key);
    }
  }

  /** Removing a proper prefix of the first segment. */
  function TrimFront<T>(segments: seq<Segment<T>>, count: nat): seq<Segment<T>>
    requires segments != [] && count < |segments[0].values|
    requires segments[0].firstKey + count < KEY_LIMIT
  {
    segments[0 := Segment(segments[0].firstKey + count, segments[0].values[count..])]
  }

  lemma LayoutTrim<T>(block: Numbering, first: Key, next: Key, segments: seq<Segment<T>>, count: nat)
    requires Layout(block, first, next, segments)
    requires segments != [] && count < |segments[0].values|
    ensures first + count < next
    ensures Layout(block, first + count, next, TrimFront(segments, count))
    ensures Flatten(TrimFront(segments, count)) == Flatten(segments)[count..]
  {
    var head := segments[0];
    LayoutLength(block, EndKey(head), next, segments[1..]);
    StaircaseMonotone(block, first, first + count);
    StaircaseMonotone(block, first + count, EndKey(head) - 1);
    assert TrimFront(segments, count)[1..] == segments[1..];
  }

  /** The next key goes to the last segment when it is in that segment's block. */
  function PushBack<T>(block: Numbering, next: Key, segments: seq<Segment<T>>, value: T): seq<Segment<T>> {
    var k := |segments| - 1;
    if segments != [] && block(segments[k].firstKey) == block(next) then
      segments[k := segments[k].(values := segments[k].values + [value])]
    else
      segments + [Segment(next, [value])]
  }

  lemma {:induction false} LayoutPush<T>(
    block: Numbering, first: int, next: Key, segments: seq<Segment<T>>, value: T)
    requires Layout(block, first, next, segments)
    ensures segments != [] ==> EndKey(segments[|segments| - 1]) == next
    ensures Layout(block, first, next + 1, PushBack(block, next, segments, value))
    ensures Flatten(PushBack(block, next, segments, value)) == Flatten(segments) + [value]
    decreases |segments|
  {
    var pushed := PushBack(block, next, segments, value);
    if segments == [] {
      assert pushed[1..] == [];
    } else if segments[1..] == [] {
      assert StepAt(block, next - 1);
      assert pushed[1..] == [] || pushed[1..] == [Segment(next, [value])];
      assert pushed[1..] != [] ==> pushed[1..][1..] == [];
    } else {
      LayoutPush(block, EndKey(segments[0]), next, segments[1..], value);
      assert pushed[1..] == PushBack(block, next, segments[1..], value);
    }
  }

  /** Overwriting one stored value changes exactly the value at its key. */
  lemma {:induction false} LayoutSet<T>(
    block: Numbering, first: int, next: int, segments: seq<Segment<T>>, i: nat, j: nat, value: T)
    requires Layout(block, first, next, segments)
    requires i < |segments| && j < |segments[i].values|
    ensures var s := segments[i];
            var changed := segments[i := s.(values := s.values[j := value])];
            && 0 <= s.firstKey + j - first < |Flatten(segments)|
            && Layout(block, first, next, changed)
            && Flatten(changed) == Flatten(segments)[s.firstKey + j - first := value]
    decreases i
  {
    var s := segments[i];
    var changed := segments[i := s.(values := s.values[j := value])];
    if i == 0 {
      assert changed[1..] == segments[1..];
    } else {
      LayoutSet(block, EndKey(segments[0]), next, segments[1..], i - 1, j, value);
      assert changed[1..] == segments[1..][i - 1 := s.(values := s.values[j := value])];
    }
  }

  // ---------------------------------------------------------------- iteration

  /** The pairs of consecutive keys and values from `first` on. */
  function Pairs<T>(first: int, values: seq<T>): seq<(int, T)> {
    seq(|values|, i requires 0 <= i < |values| => (first + i, values[i]))
  }

  lemma PairsAppend<T>(first: int, a: seq<T>, b: seq<T>)
    ensures Pairs(first, a + b) == Pairs(first, a) + Pairs(first + |a|, b)
  {
  }

  lemma SuffixPairs<T>(first: int, values: seq<T>, from: nat)
    requires from <= |values|
    ensures var pairs := Pairs(first + from, values[from..]);
            && |pairs| == |values| - from
            && forall i :: 0 <= i < |pairs| ==> pairs[i] == (first + from + i, values[from + i])
  {
  }

  lemma NoPairs<T>(first: int)
    ensures Pairs<T>(first, []) == [] == SegmentPairs<T>([], 0)
  {
  }

  /** One flat-mapped iterator over `segments`, skipping `skip` values of the first. */
  function SegmentPairs<T>(segments: seq<Segment<T>>, skip: nat): seq<(int, T)>
    requires segments != [] ==> skip <= |segments[0].values|
    decreases |segments|
  {
    if segments == [] then []
    else Pairs(segments[0].firstKey + skip, segments[0].values[skip..]) + SegmentPairs(segments[1..], 0)
  }

  lemma DropTwice<T>(all: seq<T>, kept: seq<T>, m: nat, n: nat)
    requires m <= |all| && kept == all[m..] && n <= |kept|
    ensures kept[n..] == all[m + n..]
  {
  }

  lemma DropInside<T>(a: seq<T>, b: seq<T>, k: nat)
    requires k <= |a|
    ensures (a + b)[k..] == a[k..] + b
  {
  }

  lemma DropBeyond<T>(a: seq<T>, b: seq<T>, k: nat)
    requires |a| <= k <= |a| + |b|
    ensures (a + b)[k..] == b[k - |a|..]
  {
  }

  lemma {:induction false} IterationFlattens<T>(segments: seq<Segment<T>>, first: int, next: int, block: Numbering, skip: nat)
    requires Layout(block, first, next, segments)
    requires if segments == [] then skip == 0 else skip <= |segments[0].values|
    ensures skip <= |Flatten(segments)|
    ensures SegmentPairs(segments, skip) == Pairs(first + skip, Flatten(segments)[skip..])
    decreases |segments|
  {
    hide Pairs;
    if segments == [] {
      NoPairs<T>(first);
    } else {
      var s, rest := segments[0], segments[1..];
      IterationFlattens(rest, EndKey(s), next, block, 0);
      assert Flatten(rest)[0..] == Flatten(rest);
      PairsAppend(first + skip, s.values[skip..], Flatten(rest));
      DropInside(s.values, Flatten(rest), skip);
    }
  }

  /** Iterating from segment `i` yields exactly the retained suffix. */
  lemma {:induction false} IterationIsSuffix<T>(
    block: Numbering, first: int, next: int, segments: seq<Segment<T>>, i: nat, skip: nat)
    requires Layout(block, first, next, segments) && i < |segments| && skip <= |segments[i].values|
    ensures 0 <= segments[i].firstKey + skip - first <= |Flatten(segments)|
    ensures var start := segments[i].firstKey + skip;
            SegmentPairs(segments[i..], skip) == Pairs(start, Flatten(segments)[start - first..])
    decreases i
  {
    hide Layout, Flatten, SegmentPairs, Pairs;
    LayoutFront(block, first, next, segments);
    if i == 0 {
      assert segments[0..] == segments;
      IterationFlattens(segments, first, next, block, skip);
    } else {
      var s, rest := segments[0], segments[1..];
      var start := segments[i].firstKey + skip;
      assert rest[i - 1] == segments[i] && rest[i - 1..] == segments[i..];
      IterationIsSuffix(block, EndKey(s), next, rest, i - 1, skip);
      assert |s.values| <= start - first && start - first - |s.values| == start - EndKey(s);
      DropBeyond(s.values, Flatten(rest), start - first);
    }
  }

  // ---------------------------------------------------------------- the map

  /** The comparator answers Less, then Equal, then Greater along the retained values. */
  ghost predicate Ordered<T>(compare: (Key, T) -> Ordering, first: Key, values: seq<T>)
    requires first + |values| < KEY_LIMIT
  {
    forall i, j :: 0 <= i < j < |values| ==>
      && (compare(first + j, values[j]).Less? ==> compare(first + i, values[i]).Less?)
      && (compare(first + i, values[i]).Greater? ==> compare(first + j, values[j]).Greater?)
  }

  function Clamp(x: Key, low: Key, high: Key): Key {
    if x < low then low else if x > high then high else x
  }

  function CheckedSub(a: Key, b: Key): Option<Key> {
    if a < b then None else Some(a - b)
  }

  function TryIntoSize(a: Key): Option<Size> {
    if a < SIZE_LIMIT then Some(a) else None
  }

  /**
   * The segment and offset of a key, by one division.  Every step that could leave its
   * range answers None; `DenseOrderedMap.Position` shows that none does for a retained key.
   */
  function PositionIn<T>(capacity: Size, first: Key, next: Key, segments: seq<Segment<T>>, key: Key)
    : (r: Option<(Size, Size)>)
    requires capacity > 0
    ensures r.Some? ==>
              && first <= key < next
              && r.value.0 < |segments| && r.value.1 < |segments[r.value.0].values|
              && segments[r.value.0].firstKey + r.value.1 == key
  {
    hide SegmentNumber;
    if key < first || key >= next || segments == [] then None
    else
      match CheckedSub(SegmentNumber(key, capacity), SegmentNumber(segments[0].firstKey, capacity))
      case None => None
      case Some(distance) =>
        match TryIntoSize(distance)
        case None => None
        case Some(i) =>
          if i >= |segments| then None
          else
            match CheckedSub(key, segments[i].firstKey)
            case None => None
            case Some(offset) =>
              match TryIntoSize(offset)
              case None => None
              case Some(j) => if j < |segments[i].values| then Some((i, j)) else None
  }

  /** The comparator gives one answer for the retained indices [low, high). */
  ghost predicate Answers<T>(
    compare: (Key, T) -> Ordering, first: Key, values: seq<T>, low: int, high: int, answer: Ordering)
    requires first + |values| < KEY_LIMIT
  {
    forall i :: 0 <= i < |values| && low <= i < high ==> compare(first + i, values[i]) == answer
  }

  lemma NoAnswers<T>(compare: (Key, T) -> Ordering, first: Key, values: seq<T>, at: int, answer: Ordering)
    requires first + |values| < KEY_LIMIT
    ensures Answers(compare, first, values, at, at, answer)
  {
  }

  lemma ComparedAt<T>(compare: (Key, T) -> Ordering, first: Key, values: seq<T>, m: nat)
    requires first + |values| < KEY_LIMIT && m < |values| && Ordered(compare, first, values)
    ensures compare(first + m, values[m]).Less? ==> Answers(compare, first, values, 0, m + 1, Less)
    ensures compare(first + m, values[m]).Greater? ==> Answers(compare, first, values, m, |values|, Greater)
  {
  }

  /** The reference a map refines: a first key and the values from that key on. */
  datatype Reference<T> = Reference(first: int, values: seq<T>)

  datatype Op<T> = PushOp(key: Key, value: T) | SetOp(key: Key, value: T) | PopOp | TruncateOp(key: Key)

  function Apply<T>(m: Reference<T>, op: Op<T>): Reference<T> {
    var n := |m.values|;
    match op
    case PushOp(key, value) =>
      if key == m.first + n && key + 1 < KEY_LIMIT && n + 1 < SIZE_LIMIT then m.(values := m.values + [value]) else m
    case SetOp(key, value) =>
      if m.first <= key < m.first + n then m.(values := m.values[key - m.first := value]) else m
    case PopOp => if n == 0 then m else Reference(m.first + 1, m.values[1..])
    case TruncateOp(key) =>
      if key <= m.first then m
      else if key < m.first + n then Reference(key, m.values[key - m.first..])
      else Reference(m.first + n, [])
  }

  function Run<T>(m: Reference<T>, ops: seq<Op<T>>): Reference<T>
    decreases |ops|
  {
    if ops == [] then m else Apply(Run(m, ops[..|ops| - 1]), ops[|ops| - 1])
  }

  class DenseOrderedMap<T> {
    const capacity: Size
    var firstKey: Key
    var nextKey: Key
    var len: Size
    var segments: seq<Segment<T>>

    ghost const block: Numbering  // SegmentNumber for this capacity

    ghost predicate Valid()
      reads this
    {
      && Numbers(block, capacity)
      && Layout(block, firstKey, nextKey, segments)
      && len == nextKey - firstKey
    }

    /** The retained values, in key order from `firstKey`. */
    ghost function Contents(): seq<T>
      reads this
    {
      Flatten(segments)
    }

    /** `Valid` counts the contents: |Contents()| == len == nextKey - firstKey. */
    lemma Counted()
      requires Valid()
      ensures |Contents()| == len == nextKey - firstKey
      ensures segments == [] <==> len == 0
    {
      LayoutLength(block, firstKey, nextKey, segments);
    }

    lemma LocateRetained(key: Key)
      requires Valid()
      ensures firstKey <= key < nextKey ==>
                var p := PositionIn(capacity, firstKey, nextKey, segments, key);
                && p.Some?
                && |Contents()| == nextKey - firstKey
                && Contents()[key - firstKey] == segments[p.value.0].values[p.value.1]
    {
      if firstKey <= key < nextKey {
        Locate(block, firstKey, nextKey, segments, key);
      }
    }

    constructor (capacity: Size, firstKey: Key)
      requires capacity > 0
      ensures Valid() && Contents() == []
      ensures this.capacity == capacity && this.firstKey == firstKey == nextKey
    {
      this.capacity := capacity;
      this.block := NumberingOf(capacity);
      this.firstKey := firstKey;
      this.nextKey := firstKey;
      this.len := 0;
      this.segments := [];
    }

    /** Where an exact key is stored: present exactly on [firstKey, nextKey). */
    function Position(key: Key): (r: Option<(Size, Size)>)
      requires Valid()
      reads this
      ensures r.Some? <==> firstKey <= key < nextKey
      ensures |Contents()| == nextKey - firstKey
      ensures r.Some? ==>
                var (i, j) := r.value;
                && i < |segments| && j < |segments[i].values|
                && segments[i].firstKey + j == key
                && segments[i].values[j] == Contents()[key - firstKey]
    {
      Counted();
      LocateRetained(key);
      PositionIn(capacity, firstKey, nextKey, segments, key)
    }

    /** Exact lookup answers with the value at that key, and only for retained keys. */
    function Get(key: Key): (r: Option<T>)
      requires Valid()
      reads this
      ensures |Contents()| == nextKey - firstKey
      ensures r == if firstKey <= key < nextKey then Some(Contents()[key - firstKey]) else None
    {
      var p := Position(key);
      if p.None? then None else Some(segments[p.value.0].values[p.value.1])
    }

    /** Appends the next dense key, or returns the value and says why not. */
    method Push(key: Key, value: T) returns (r: Result<(), InsertError<T>>)
      requires Valid()
      modifies this
      ensures Valid() && firstKey == old(firstKey)
      ensures r.Ok? <==> key == old(nextKey) && key + 1 < KEY_LIMIT && old(len) + 1 < SIZE_LIMIT
      ensures r.Ok? ==> nextKey == key + 1 && Contents() == old(Contents()) + [value]
      ensures r.Err? ==>
                && unchanged(this)
                && r.error == if key != nextKey then OutOfOrder(nextKey, key, value)
                              else if key + 1 == KEY_LIMIT then KeySpaceExhausted(value)
                              else CapacityExhausted(value)
    {
      hide Layout, Flatten;
      if key != nextKey {
        return Err(OutOfOrder(nextKey, key, value));
      }
      if key + 1 >= KEY_LIMIT {
        return Err(KeySpaceExhausted(value));
      }
      if len + 1 >= SIZE_LIMIT {
        return Err(CapacityExhausted(value));
      }
      LayoutPush(block, firstKey, nextKey, segments, value);
      var segmentNumber := SegmentNumber(key, capacity);
      var back := |segments| - 1;
      if segments != [] && SegmentNumber(segments[back].firstKey, capacity) == segmentNumber {
        assert EndKey(segments[back]) == key;
        segments := segments[back := segments[back].(values := segments[back].values + [value])];
      } else {
        segments := segments + [Segment(key, [value])];
      }
      nextKey := key + 1;
      len := len + 1;
      return Ok(());
    }

    /** Overwrites the value of a retained key through its mutable reference. */
    method Set(key: Key, value: T) returns (r: Option<T>)
      requires Valid()
      modifies this`segments
      ensures Valid()
      ensures |old(Contents())| == nextKey - firstKey
      ensures r.Some? <==> firstKey <= key < nextKey
      ensures r.Some? ==>
                && r.value == old(Contents())[key - firstKey]
                && Contents() == old(Contents())[key - firstKey := value]
      ensures r.None? ==> segments == old(segments)
    {
      hide Layout, Flatten, Numbers;
      var p := Position(key);
      if p.None? {
        return None;
      }
      var (i, j) := p.value;
      LayoutSet(block, firstKey, nextKey, segments, i, j, value);
      r := Some(segments[i].values[j]);
      segments := segments[i := segments[i].(values := segments[i].values[j := value])];
    }

    /** Takes the lowest key out, and its segment too when that was its last value. */
    method PopFront() returns (r: Option<(Key, T)>)
      requires Valid()
      modifies this
      ensures Valid() && nextKey == old(nextKey)
      ensures r.None? <==> old(Contents()) == []
      ensures r.None? ==> unchanged(this)
      ensures r.Some? ==>
                && r.value == (old(firstKey), old(Contents())[0])
                && firstKey == old(firstKey) + 1
                && Contents() == old(Contents())[1..]
    {
      hide Layout, Flatten, Numbers;
      Counted();
      var key := firstKey;
      if segments != [] {
        LayoutFront(block, firstKey, nextKey, segments);
      }
      if segments == [] || segments[0].values == [] {
        return None;
      }
      var segment := segments[0];
      var value := segment.values[0];
      LayoutLength(block, EndKey(segment), nextKey, segments[1..]);
      if |segment.values| > 1 {
          LayoutTrim(block, firstKey, nextKey, segments, 1);
      }
      segment := Segment(segment.firstKey + 1, segment.values[1..]);
      firstKey := firstKey + 1;
      len := len - 1;
      segments := if segment.values == [] then segments[1..] else segments[0 := segment];
      if len == 0 {
        firstKey := nextKey;
      }
      return Some((key, value));
    }

    /** The part of a truncation that drops whole segments ending at or before `target`. */
    method DropSegments(target: Key) returns (removed: Size)
      requires Valid() && firstKey <= target <= nextKey
      modifies this
      ensures Valid() && nextKey == old(nextKey)
      ensures firstKey == old(firstKey) + removed <= target
      ensures |old(Contents())| == old(len) && Contents() == old(Contents())[removed..]
      ensures segments == [] || target < EndKey(segments[0])
    {
      hide Layout, Flatten, Numbers;
      Counted();
      removed := 0;
      while segments != [] && EndKey(segments[0]) <= target
        invariant Valid() && nextKey == old(nextKey)
        invariant firstKey == old(firstKey) + removed <= target <= nextKey
        invariant Contents() == old(Contents())[removed..]
        decreases |segments|
      {
        LayoutFront(block, firstKey, nextKey, segments);
        var segment := segments[0];
        segments := segments[1..];
        removed := removed + |segment.values|;
        len := len - |segment.values|;
        firstKey := EndKey(segment);
      }
    }

    /** The part of a truncation that drops a proper prefix of the first segment. */
    method TrimSegment(target: Key) returns (removed: Size)
      requires Valid() && firstKey <= target <= nextKey
      requires segments == [] || target < EndKey(segments[0])
      modifies this
      ensures Valid() && nextKey == old(nextKey)
      ensures removed == target - old(firstKey) && firstKey == target
      ensures |old(Contents())| == old(len) && Contents() == old(Contents())[removed..]
    {
      hide Layout, Flatten, Numbers;
      Counted();
      removed := 0;
      if segments != [] {
        LayoutFront(block, firstKey, nextKey, segments);
        if segments[0].firstKey < target {
          removed := target - segments[0].firstKey;
          LayoutTrim(block, firstKey, nextKey, segments, removed);
          segments := TrimFront(segments, removed);
          len := len - removed;
          firstKey := target;
        }
      }
    }

    /** Drops the retained entries whose key is below the bound, and reports how many. */
    method TruncateBefore(firstRetained: Key) returns (removed: Size)
      requires Valid()
      modifies this
      ensures Valid() && nextKey == old(nextKey)
      ensures removed == if firstRetained <= old(firstKey) then 0
                         else if firstRetained >= nextKey then old(len)
                         else firstRetained - old(firstKey)
      ensures firstKey == old(firstKey) + removed
      ensures |old(Contents())| == old(len) && Contents() == old(Contents())[removed..]
    {
      hide Layout, Flatten, Numbers;
      var target := Clamp(firstRetained, firstKey, nextKey);
      removed := DropSegments(target);
      ghost var kept := Contents();
      var trimmed := TrimSegment(target);
      DropTwice(old(Contents()), kept, removed, trimmed);
      removed := removed + trimmed;
      if len == 0 {
        firstKey := nextKey;
      }
    }

    /** The pairs from a key on; keys outside the retained range are clamped to it. */
    function IterFrom(key: Key): seq<(int, T)>
      requires Valid()
      reads this
    {
      var start := Clamp(key, firstKey, nextKey);
      if start == nextKey then SegmentPairs(segments[|segments|..], 0)
      else
        var p := Position(start).value;
        SegmentPairs(segments[p.0..], p.1)
    }

    /** Iteration yields exactly the retained suffix. */
    lemma IterFromIsSuffix(key: Key)
      requires Valid()
      ensures |Contents()| == nextKey - firstKey
      ensures var start := Clamp(key, firstKey, nextKey);
              IterFrom(key) == Pairs(start, Contents()[start - firstKey..])
    {
      hide Layout, Flatten, Numbers, Pairs, SegmentPairs, Position, PositionIn;
      Counted();
      var start := Clamp(key, firstKey, nextKey);
      if start == nextKey {
        NoPairs<T>(start);
        assert segments[|segments|..] == [] && Contents()[start - firstKey..] == [];
      } else {
        var p := Position(start).value;
        IterationIsSuffix(block, firstKey, nextKey, segments, p.0, p.1);
      }
    }

    /** The iteration, pair by pair: every retained key from the clamped start on, in order. */
    lemma IterFromPairs(key: Key)
      requires Valid()
      ensures |Contents()| == nextKey - firstKey
      ensures var start := if key < firstKey then firstKey else if key < nextKey then key else nextKey;
              && |IterFrom(key)| == nextKey - start
              && forall i :: 0 <= i < nextKey - start ==>
                   IterFrom(key)[i] == (start + i, Contents()[start + i - firstKey])
    {
      hide DenseOrderedMap.Valid, IterFrom, Contents, Pairs;
      IterFromIsSuffix(key);
      var start := Clamp(key, firstKey, nextKey);
      SuffixPairs(firstKey, Contents(), start - firstKey);
    }

    /**
     * Binary search.  Whatever the comparator, an Ok key is retained and compares Equal;
     * when the comparator is ordered, Err is the exact insertion key and no value is Equal.
     */
    method BinarySearchBy(compare: (Key, T) -> Ordering) returns (r: Result<Key, Key>)
      requires Valid()
      ensures |Contents()| == nextKey - firstKey
      ensures r.Ok? ==> firstKey <= r.value < nextKey && compare(r.value, Contents()[r.value - firstKey]).Equal?
      ensures r.Err? ==> firstKey <= r.error <= nextKey
      ensures r.Err? && Ordered(compare, firstKey, Contents()) ==>
                && Answers(compare, firstKey, Contents(), 0, r.error - firstKey, Less)
                && Answers(compare, firstKey, Contents(), r.error - firstKey, len, Greater)
    {
      hide Layout, Flatten, Numbers, Position, PositionIn, Ordered, Answers;
      Counted();
      NoAnswers(compare, firstKey, Contents(), 0, Less);
      NoAnswers(compare, firstKey, Contents(), len, Greater);
      var left: Size, right: Size := 0, len;
      while left < right
        invariant 0 <= left <= right <= len
        invariant Ordered(compare, firstKey, Contents()) ==>
                    && Answers(compare, firstKey, Contents(), 0, left, Less)
                    && Answers(compare, firstKey, Contents(), right, len, Greater)
      {
        var middle: Size := left + (right - left) / 2;
        var key: Key := firstKey + middle;
        var value := Get(key).value;
        if Ordered(compare, firstKey, Contents()) {
          ComparedAt(compare, firstKey, Contents(), middle);
        }
        match compare(key, value)
        case Less => left := middle + 1;
        case Equal => return Ok(key);
        case Greater => right := middle;
      }
      return Err(firstKey + left);
    }

    ghost function View(): Reference<T>
      reads this
    {
      Reference(firstKey, Contents())
    }

    /** One operation of a run. */
    method Perform(op: Op<T>)
      requires Valid()
      modifies this
      ensures Valid() && View() == Apply(old(View()), op)
    {
      hide Layout, Flatten, Numbers;
      Counted();
      match op
      case PushOp(key, value) => var _ := Push(key, value);
      case SetOp(key, value) => var _ := Set(key, value);
      case PopOp => var _ := PopFront();
      case TruncateOp(key) => var _ := TruncateBefore(key);
    }

    /** Any run of operations refines the reference, and lookups then answer from it. */
    method Replay(ops: seq<Op<T>>)
      requires Valid()
      modifies this
      ensures Valid() && View() == Run(old(View()), ops)
      ensures nextKey - firstKey == |View().values|
      ensures forall key: Key :: Get(key) == if 0 <= key - View().first < |View().values|
                                             then Some(View().values[key - View().first]) else None
    {
      hide Layout, Flatten, Numbers;
      for n := 0 to |ops|
        invariant Valid() && View() == Run(old(View()), ops[..n])
      {
        assert ops[..n + 1][..n] == ops[..n];
        Perform(ops[n]);
      }
      assert ops[..|ops|] == ops;
      Counted();
    }
  }
}
