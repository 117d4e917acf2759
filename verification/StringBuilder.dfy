/** The string builder over the arena (stringbuilder.c). An append is given the text its
    format produces. */
module StringBuilder {
  import opened Arenas

  const INITIAL_CAPACITY: nat := 1024
  const SIZE_MAX: nat := 1024 * 1024
  const NUL: char := '\0'
  const STRUCT_SIZE: nat := 32

  /** The doubling loop: the capacity at which a growing buffer stops. */
  function Target(capacity: nat, needed: nat): (r: nat)
    requires 0 < capacity <= SIZE_MAX
    ensures capacity <= r <= SIZE_MAX
    decreases SIZE_MAX - capacity
  {
    if capacity >= needed then capacity
    else if capacity > SIZE_MAX / 2 then SIZE_MAX
    else Target(capacity * 2, needed)
  }

  function Power2(k: nat): nat {
    if k == 0 then 1 else 2 * Power2(k - 1)
  }

  /** Capacities are the initial one doubled some number of times. */
  ghost predicate IsCapacity(c: nat) {
    exists k: nat :: c == INITIAL_CAPACITY * Power2(k)
  }

  lemma DoubleCapacity(c: nat)
    requires IsCapacity(c)
    ensures IsCapacity(2 * c)
  {
    var k: nat :| c == INITIAL_CAPACITY * Power2(k);
    assert 2 * c == INITIAL_CAPACITY * Power2(k + 1);
  }

  /** Within 1 MiB the target is enough, less than twice the need, and at least double. */
  lemma {:induction false} TargetFits(capacity: nat, needed: nat)
    requires 0 < capacity <= SIZE_MAX && needed <= SIZE_MAX && IsCapacity(capacity)
    requires capacity < needed
    ensures var r := Target(capacity, needed);
      needed <= r < 2 * needed && 2 * capacity <= r && IsCapacity(r)
    decreases SIZE_MAX - capacity
  {
    DoubleCapacity(capacity);
    SmallOrMax(capacity);
    if capacity <= SIZE_MAX / 2 && capacity * 2 < needed {
      TargetFits(capacity * 2, needed);
    }
  }

  lemma PowerValues()
    ensures Power2(9) == 512 && Power2(10) == 1024
  {
    assert Power2(5) == 32;
  }

  /** A capacity below 1 MiB is at most half of it. */
  lemma SmallOrMax(c: nat)
    requires IsCapacity(c) && c < SIZE_MAX
    ensures c <= SIZE_MAX / 2
  {
    var k: nat :| c == INITIAL_CAPACITY * Power2(k);
    PowerValues();
    if k >= 10 {
      PowerMonotone(10, k);
    } else {
      PowerMonotone(k, 9);
    }
  }

  lemma {:induction false} PowerMonotone(a: nat, b: nat)
    requires a <= b
    ensures Power2(a) <= Power2(b)
  {
    if a < b {
      PowerMonotone(a, b - 1);
    }
  }

  // ---------- the builder on values ----------

  /** What was appended, how large the buffer is, and how much all buffers so far took. */
  datatype Model = Model(content: string, capacity: nat, taken: nat)

  const EMPTY := Model("", INITIAL_CAPACITY, INITIAL_CAPACITY)

  /** An append whose arena request, if it makes one, succeeds. */
  function Appended(m: Model, text: string): Model
    requires 0 < m.capacity <= SIZE_MAX
  {
    var need := |m.content| + |text| + 1;
    if need <= m.capacity then m.(content := m.content + text)
    else
      var capacity := Target(m.capacity, need);
      Model(m.content + text, capacity, m.taken + capacity)
  }

  ghost predicate Sound(m: Model) {
    && |m.content| < m.capacity <= SIZE_MAX
    && IsCapacity(m.capacity)
    && (m.capacity == INITIAL_CAPACITY || m.capacity < 2 * (|m.content| + 1))
    && m.taken < 2 * m.capacity
  }

  /** An append keeps the builder sound exactly when the text with its terminator still
      fits 1 MiB. */
  lemma AppendSound(m: Model, text: string)
    requires Sound(m)
    ensures Sound(Appended(m, text)) <==> |m.content| + |text| + 1 <= SIZE_MAX
    ensures m.capacity <= Appended(m, text).capacity
  {
    var need := |m.content| + |text| + 1;
    if m.capacity < need <= SIZE_MAX {
      TargetFits(m.capacity, need);
    }
  }

  function AppendedAll(m: Model, texts: seq<string>): Model
    requires 0 < m.capacity <= SIZE_MAX
    decreases |texts|
  {
    if texts == [] then m else AppendedAll(Appended(m, texts[0]), texts[1..])
  }

  function Concat(texts: seq<string>): string {
    if texts == [] then "" else texts[0] + Concat(texts[1..])
  }

  /** Any sequence of appends whose total with the terminator stays within 1 MiB yields the
      concatenation, in a buffer that is large enough, a doubling of the initial one, less
      than twice as large as needed once it has grown; and all buffers together took less
      than twice the last one. */
  lemma {:induction false} AppendsConcatenate(m: Model, texts: seq<string>)
    requires Sound(m) && |m.content| + |Concat(texts)| + 1 <= SIZE_MAX
    ensures var r := AppendedAll(m, texts); Sound(r) && r.content == m.content + Concat(texts)
    decreases |texts|
  {
    hide Sound, Target;
    SoundBounds(m);
    if texts == [] {
      assert m.content + "" == m.content;
    } else {
      AppendSound(m, texts[0]);
      AppendsConcatenate(Appended(m, texts[0]), texts[1..]);
      assert m.content + (texts[0] + Concat(texts[1..])) == (m.content + texts[0]) + Concat(texts[1..]);
    }
  }

  lemma EmptySound()
    ensures Sound(EMPTY)
  {
    assert INITIAL_CAPACITY == INITIAL_CAPACITY * Power2(0);
  }

  // ---------- the builder object ----------

  class Builder {
    const arena: Arena
    var buffer: array<char>
    var capacity: nat
    var length: nat
    ghost var taken: nat

    ghost predicate Valid()
      reads this, arena, buffer
    {
      && arena.Valid()
      && buffer.Length == capacity
      && length < capacity
      && Sound(Contents())
    }

    ghost function Contents(): Model
      requires length <= buffer.Length
      reads this, buffer
    {
      Model(buffer[..length], capacity, taken)
    }

    /** The fresh object of StringBuilder_new. */
    constructor (arena: Arena)
      requires arena.Valid()
      ensures Valid() && Contents() == EMPTY && fresh(buffer) && this.arena == arena
    {
      this.arena := arena;
      capacity := INITIAL_CAPACITY;
      length := 0;
      taken := INITIAL_CAPACITY;
      buffer := new char[INITIAL_CAPACITY];
      new;
      buffer[0] := NUL;
      EmptySound();
    }

    /** vsnprintf into the rest of the buffer: as much of the text as leaves room for the
        terminator. */
    method Print(text: string)
      requires buffer.Length == capacity && length < capacity
      modifies buffer
      ensures buffer[..length] == old(buffer[..length])
      ensures var n := if |text| < capacity - length then |text| else capacity - length - 1;
        buffer[length..length + n] == text[..n] && buffer[length + n] == NUL
    {
      var n := if |text| < capacity - length then |text| else capacity - length - 1;
      ghost var was := buffer[..length];
      var i := 0;
      while i < n
        invariant 0 <= i <= n
        invariant buffer[..length] == was
        invariant buffer[length..length + i] == text[..i]
      {
        buffer[length + i] := text[i];
        assert buffer[length..length + i + 1] == buffer[length..length + i] + [text[i]];
        i := i + 1;
      }
      buffer[length + n] := NUL;
      assert buffer[length..length + n] == text[..n];
    }

    /** The doubling loop. */
    method Grow(needed: nat) returns (newCapacity: nat)
      requires 0 < capacity <= SIZE_MAX
      ensures newCapacity == Target(capacity, needed)
    {
      newCapacity := capacity;
      while newCapacity < needed
        invariant 0 < newCapacity <= SIZE_MAX
        invariant Target(newCapacity, needed) == Target(capacity, needed)
        decreases SIZE_MAX - newCapacity, needed - newCapacity
      {
        if newCapacity > SIZE_MAX / 2 {
          newCapacity := SIZE_MAX;
          break;
        }
        newCapacity := newCapacity * 2;
      }
    }

    /** The larger buffer: copies what has been appended. */
    method Enlarge(newCapacity: nat)
      requires buffer.Length == capacity && length < capacity < newCapacity
      modifies this`buffer, this`capacity, this`taken
      ensures fresh(buffer) && buffer.Length == capacity == newCapacity && taken == old(taken) + newCapacity
      ensures buffer[..length] == old(buffer[..length])
    {
      ghost var content := buffer[..length];
      var newBuffer := new char[newCapacity];
      var i := 0;
      while i < length
        invariant 0 <= i <= length
        invariant buffer == old(buffer) && capacity == old(capacity) && taken == old(taken)
        invariant newBuffer[..i] == content[..i] && buffer[..length] == content
      {
        newBuffer[i] := buffer[i];
        i := i + 1;
      }
      assert newBuffer[..length] == content;
      buffer := newBuffer;
      capacity := newCapacity;
      taken := taken + newCapacity;
    }

    /** Whether an append of that many characters moves to a larger buffer. */
    ghost predicate Grows(n: nat)
      requires 0 < capacity <= SIZE_MAX
      reads this, arena
    {
      && length + n + 1 > capacity && capacity < SIZE_MAX
      && arena.used + RoundUp(Target(capacity, length + n + 1)) <= arena.size
    }

    /** Moves to a larger buffer if there is one, and prints the text into it. */
    method Reprint(text: string) returns (grown: bool)
      requires arena.Valid() && buffer.Length == capacity && length < capacity <= SIZE_MAX
      requires length + |text| + 1 > capacity
      modifies this`buffer, this`capacity, this`taken, arena
      ensures arena.Valid() && grown == old(Grows(|text|)) && buffer.Length == capacity && length < capacity
      ensures buffer[..length] == old(buffer[..length])
      ensures !grown ==> buffer == old(buffer) && capacity == old(capacity) && taken == old(taken)
      ensures grown ==>
        && fresh(buffer) && capacity == Target(old(capacity), length + |text| + 1) && taken == old(taken) + capacity
        && (length + |text| + 1 <= SIZE_MAX ==>
              length + |text| < capacity && buffer[..length + |text|] == old(buffer[..length]) + text)
        && (length + |text| + 1 > SIZE_MAX ==> capacity == SIZE_MAX)
    {
      hide Target;
      var newCapacity := Grow(length + |text| + 1);
      TargetGrows(capacity, length + |text| + 1);
      if newCapacity <= capacity {
        return false;
      }
      var p := arena.Alloc(newCapacity);
      if p.None? {
        return false;
      }
      ghost var content := buffer[..length];
      Enlarge(newCapacity);
      Print(text);
      grown := true;
      if length + |text| < capacity {
        assert text[..|text|] == text;
        assert buffer[..length + |text|] == content + text;
      }
    }

    /** StringBuilder_append. Either the text is appended, in a larger buffer if need be; or
        it is dropped, when the buffer has its largest size already or the arena is
        exhausted. The object stays valid unless the buffer grew and the text still does not
        fit: then the length passes the capacity. */
    method Append(text: string)
      requires Valid()
      modifies this, buffer, arena
      ensures var m := old(Contents()); var need := old(length) + |text| + 1; var grows := old(Grows(|text|));
        if need <= old(capacity) || (grows && need <= SIZE_MAX) then
          Valid() && Contents() == Appended(m, text)
        else if !grows then
          Valid() && Contents() == m
        else
          length == old(length) + |text| && length >= capacity == SIZE_MAX && !Valid()
    {
      hide Sound, Target;
      ghost var m := Contents();
      AppendSound(m, text);
      SoundBounds(m);
      var remaining := capacity - length;
      Print(text);
      if |text| >= remaining {
        var grown := Reprint(text);
        if !grown {
          return;
        }
      } else {
        assert text[..|text|] == text;
        assert buffer[..length + |text|] == buffer[..length] + buffer[length..length + |text|];
      }
      length := length + |text|;
    }
  }

  /** StringBuilder_new: NULL exactly when the arena has no room for the object and its first
      buffer. */
  method NewBuilder(arena: Arena) returns (sb: Builder?)
    requires arena.Valid()
    modifies arena
    ensures arena.Valid()
    ensures sb == null <==> old(arena.used) + RoundUp(STRUCT_SIZE) + RoundUp(INITIAL_CAPACITY) > arena.size
    ensures sb != null ==>
      && fresh(sb) && sb.Valid() && sb.Contents() == EMPTY && fresh(sb.buffer) && sb.arena == arena
      && arena.used == old(arena.used) + RoundUp(STRUCT_SIZE) + RoundUp(INITIAL_CAPACITY)
  {
    var p := arena.Alloc(STRUCT_SIZE);
    if p.None? {
      return null;
    }
    var q := arena.Alloc(INITIAL_CAPACITY);
    if q.None? {
      return null;
    }
    sb := new Builder(arena);
  }

  /** For example: a first append of 1 MiB moves to the largest buffer and still does not
      fit. The length reaches the capacity. */
  method PastTheCap() returns (sb: Builder?)
    ensures sb != null && fresh(sb) && sb.length == sb.capacity == SIZE_MAX && !sb.Valid()
  {
    var arena := new Arena(4 * SIZE_MAX);
    sb := NewBuilder(arena);
    TargetGrows(INITIAL_CAPACITY, SIZE_MAX + 1);
    assert sb.Grows(SIZE_MAX);
    sb.Append(seq(SIZE_MAX, i => 'a'));
  }

  lemma SoundBounds(m: Model)
    requires Sound(m)
    ensures |m.content| < m.capacity <= SIZE_MAX
  {
  }

  /** A buffer that is too small grows unless it has the largest size already. */
  lemma TargetGrows(capacity: nat, need: nat)
    requires 0 < capacity <= SIZE_MAX && capacity < need
    ensures Target(capacity, need) > capacity <==> capacity < SIZE_MAX
    ensures need > SIZE_MAX ==> Target(capacity, need) == SIZE_MAX
    ensures need <= SIZE_MAX ==> Target(capacity, need) >= need
    ensures Target(capacity, need) <= LIMIT
    decreases SIZE_MAX - capacity
  {
    if capacity <= SIZE_MAX / 2 && capacity * 2 < need {
      TargetGrows(capacity * 2, need);
    }
  }
}
