/** The indexes of a Buffer: where they can go, and how large the storage can get. */
module BufferSpec {

  const CHEAP_PREPEND: nat := 8
  const INITIAL_SIZE: nat := 1024
  const EXTRA_SIZE: nat := 65535

  /** Storage size and the two indexes; the readable bytes lie between them. */
  datatype Shape = Shape(size: nat, read: nat, write: nat)

  predicate Valid(s: Shape) {
    CHEAP_PREPEND <= s.read <= s.write <= s.size
  }

  function Readable(s: Shape): nat
    requires Valid(s)
  {
    s.write - s.read
  }

  function Writeable(s: Shape): nat
    requires Valid(s)
  {
    s.size - s.write
  }

  function New(initial: nat): Shape {
    Shape(CHEAP_PREPEND + initial, CHEAP_PREPEND, CHEAP_PREPEND)
  }

  /** Grow to exactly what is needed, or slide the readable bytes to the front. */
  function MakeSpace(s: Shape, len: nat): Shape
    requires Valid(s)
  {
    if Writeable(s) + s.read < len + CHEAP_PREPEND then s.(size := s.write + len)
    else Shape(s.size, CHEAP_PREPEND, CHEAP_PREPEND + Readable(s))
  }

  function EnsureWriteable(s: Shape, len: nat): Shape
    requires Valid(s)
  {
    if Writeable(s) < len then MakeSpace(s, len) else s
  }

  function Append(s: Shape, len: nat): Shape
    requires Valid(s)
  {
    var t := EnsureWriteable(s, len);
    t.(write := t.write + len)
  }

  /** Taking everything, or more, resets both indexes. */
  function Retrive(s: Shape, len: nat): Shape
    requires Valid(s)
  {
    if len < Readable(s) then s.(read := s.read + len) else Shape(s.size, CHEAP_PREPEND, CHEAP_PREPEND)
  }

  /** The most one readv can deliver: the stack region is used only when the storage is smaller than it. */
  function ReadLimit(s: Shape): nat
    requires Valid(s)
  {
    if Writeable(s) < EXTRA_SIZE then Writeable(s) + EXTRA_SIZE else Writeable(s)
  }

  function ReadFd(s: Shape, n: nat): Shape
    requires Valid(s)
  {
    if n <= Writeable(s) then s.(write := s.write + n)
    else Append(s.(write := s.size), n - Writeable(s))
  }

  // -------------------------------------------------------------- steps

  /** After EnsureWriteableBytes(len) there is room for len bytes, and the readable count is unchanged. */
  lemma EnsureMakesRoom(s: Shape, len: nat)
    requires Valid(s)
    ensures var t := EnsureWriteable(s, len);
      Valid(t) && Writeable(t) >= len && Readable(t) == Readable(s) && t.size >= s.size
  {
  }

  /** Making room grows the storage exactly when what is readable and what is to come do not fit behind the first eight bytes. */
  lemma GrowsIff(s: Shape, len: nat)
    requires Valid(s)
    ensures var t := EnsureWriteable(s, len);
      && (t.size > s.size <==> 8 + Readable(s) + len > s.size)
      && (t.size > s.size ==> t.size == s.write + len)
  {
  }

  // --------------------------------------------------------------- runs

  datatype Op = OpAppend(n: nat) | OpRetrive(n: nat) | OpRead(n: nat)

  function Apply(s: Shape, op: Op): (t: Shape)
    requires Valid(s)
    ensures Valid(t)
  {
    match op
    case OpAppend(n) => Append(s, n)
    case OpRetrive(n) => Retrive(s, n)
    case OpRead(n) => ReadFd(s, n)
  }

  function Exec(s: Shape, ops: seq<Op>): (t: Shape)
    requires Valid(s)
    ensures Valid(t)
    decreases |ops|
  {
    if ops == [] then s else Exec(Apply(s, ops[0]), ops[1..])
  }

  function Max(a: nat, b: nat): nat {
    if a > b then a else b
  }

  /** The largest number of readable bytes held from here on. */
  function Peak(s: Shape, ops: seq<Op>): nat
    requires Valid(s)
    decreases |ops|
  {
    if ops == [] then Readable(s)
    else Max(Readable(s), Peak(Apply(s, ops[0]), ops[1..]))
  }

  /** What the storage may be when at most `peak` bytes were ever readable. */
  function Bound(initial: nat, peak: nat): nat {
    Max(CHEAP_PREPEND + initial, Max(CHEAP_PREPEND + peak, 2 * peak + 6))
  }

  /** An empty buffer always has its indexes reset. */
  predicate Tidy(s: Shape) {
    s.read == s.write ==> s.read == CHEAP_PREPEND
  }

  lemma ApplyBounded(s: Shape, op: Op, initial: nat, peak: nat)
    requires Valid(s) && Tidy(s) && s.size <= Bound(initial, peak)
    requires Readable(s) <= peak && Readable(Apply(s, op)) <= peak
    ensures Tidy(Apply(s, op)) && Apply(s, op).size <= Bound(initial, peak)
  {
  }

  lemma {:induction false} ExecBounded(s: Shape, ops: seq<Op>, initial: nat, peak: nat)
    requires Valid(s) && Tidy(s) && s.size <= Bound(initial, peak) && Peak(s, ops) <= peak
    ensures Exec(s, ops).size <= Bound(initial, peak)
    decreases |ops|
  {
    if ops != [] {
      var t := Apply(s, ops[0]);
      assert Readable(t) <= Peak(t, ops[1..]) by {
        if |ops| == 1 {
          assert ops[1..] == [];
        }
      }
      ApplyBounded(s, ops[0], initial, peak);
      ExecBounded(t, ops[1..], initial, peak);
    }
  }

  /** Storage bound over every run: a constant, or about twice the most bytes ever held. */
  lemma StorageBounded(initial: nat, ops: seq<Op>)
    ensures Exec(New(initial), ops).size <= Bound(initial, Peak(New(initial), ops))
  {
    ExecBounded(New(initial), ops, initial, Peak(New(initial), ops));
  }

  /** The bound is reached: fill the storage, leave one byte, append as much again. */
  lemma BoundIsReached(initial: nat)
    requires initial >= 2
    ensures var ops := [OpAppend(initial), OpRetrive(initial - 1), OpAppend(initial)];
      && Peak(New(initial), ops) == initial + 1
      && Exec(New(initial), ops).size == 2 * (initial + 1) + 6
      && Exec(New(initial), ops).size == Bound(initial, initial + 1)
  {
    var ops := [OpAppend(initial), OpRetrive(initial - 1), OpAppend(initial)];
    var a := Apply(New(initial), ops[0]);
    var b := Apply(a, ops[1]);
    var c := Apply(b, ops[2]);
    assert ops[1..] == [ops[1], ops[2]] && ops[1..][1..] == [ops[2]] && ops[1..][1..][1..] == [];
    assert Exec(b, [ops[2]]) == Exec(c, []) == c;
    assert Peak(b, [ops[2]]) == Max(Readable(b), Peak(c, [])) && Peak(c, []) == Readable(c);
    assert Peak(a, [ops[1], ops[2]]) == Max(Readable(a), Peak(b, [ops[2]]));
  }

  lemma {:induction false} TidyRun(s: Shape, ops: seq<Op>)
    requires Valid(s) && Tidy(s) && s.size >= CHEAP_PREPEND
    ensures Tidy(Exec(s, ops))
    decreases |ops|
  {
    if ops != [] {
      TidyRun(Apply(s, ops[0]), ops[1..]);
    }
  }

  /** Over every run, a buffer that holds nothing has all its storage but the first eight bytes to write to. */
  lemma EmptyIsAllRoom(initial: nat, ops: seq<Op>)
    ensures var s := Exec(New(initial), ops);
      Readable(s) == 0 ==> Writeable(s) == s.size - 8
  {
    TidyRun(New(initial), ops);
  }
}
