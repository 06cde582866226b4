/**
 * The asynchronous logger as a step system: any number of producers append
 * under the lock while one consumer swaps, writes and recycles buffers.
 * Every place where the lock is free is a separate step, so a run is an
 * arbitrary interleaving.
 */
module AsyncLogSpec {
  import opened Streams

  const BUFFER_SIZE: nat := 4000 * 1000
  const MAX_BATCH: nat := 25

  /** One FixedBuffer: its identity and the whole messages copied into it. */
  datatype Buf = Buf(id: nat, msgs: seq<Bytes>)

  function Content(b: Buf): Bytes {
    Flatten(b.msgs)
  }

  predicate Fits(b: Buf, len: nat) {
    BUFFER_SIZE - |Content(b)| > len
  }

  /** FixedBuffer::append: a message that does not fit is dropped silently. */
  function Put(b: Buf, msg: Bytes): Buf {
    if Fits(b, |msg|) then b.(msgs := b.msgs + [msg]) else b
  }

  type Ptr = Option<Buf>

  datatype Fault =
    | AssertFailed     // one of the asserts at the head of the consumer's loop
    | ForeignIterator  // erase() called with an iterator of another vector
    | NullBuffer       // Reset() called through a null pointer
    | EmptyPool        // back() called on an empty vector

  datatype Pc = AtHead | Waiting | Swapped | Writing(k: nat) | Exited | Crashed(why: Fault)

  /** What the mutex protects, and how many buffers were ever created. */
  datatype Front = Front(cur: Buf, next: Ptr, toWrite: seq<Buf>, created: nat)

  /** The consumer's own buffers. */
  datatype Back = Back(new1: Ptr, new2: Ptr, temp: seq<Ptr>)

  /**
   * The file and the history: every message passed to Append in lock order,
   * how many accepted ones there were at the last swap, and how many are in
   * the file.
   */
  datatype Log = Log(file: Bytes, appended: seq<Bytes>, swapped: nat, written: nat)

  datatype State = State(running: bool, front: Front, back: Back, pc: Pc, log: Log)

  /** The messages the buffers can hold at all. */
  function Accepted(msgs: seq<Bytes>): seq<Bytes> {
    if msgs == [] then []
    else
      var last := msgs[|msgs| - 1];
      Accepted(msgs[..|msgs| - 1]) + if |last| < BUFFER_SIZE then [last] else []
  }

  function Init(): State {
    State(true,
          Front(Buf(0, []), Some(Buf(1, [])), [], 4),
          Back(Some(Buf(2, [])), Some(Buf(3, [])), []),
          AtHead,
          Log([], [], 0, 0))
  }

  // ---------------------------------------------------------------- steps

  /** AsyncLogging::Append, one critical section. */
  function AppendFront(f: Front, msg: Bytes): Front {
    if Fits(f.cur, |msg|) then
      f.(cur := Put(f.cur, msg))
    else
      match f.next
      case Some(spare) => Front(Put(spare, msg), None, f.toWrite + [f.cur], f.created)
      case None => Front(Put(Buf(f.created, []), msg), None, f.toWrite + [f.cur], f.created + 1)
  }

  function Append(s: State, msg: Bytes): State {
    s.(front := AppendFront(s.front, msg), log := s.log.(appended := s.log.appended + [msg]))
  }

  predicate SpareReady(p: Ptr) {
    p.Some? && Content(p.value) == []
  }

  function Pointers(bufs: seq<Buf>): seq<Ptr> {
    seq(|bufs|, i requires 0 <= i < |bufs| => Some(bufs[i]))
  }

  /** The second half of the critical section, after any wait: the producers' side of it. */
  function SwapFront(f: Front, new1: Buf, new2: Ptr): Front {
    Front(new1, if f.next.None? then new2 else f.next, [], f.created)
  }

  /** The consumer's side of the same exchange. */
  function SwapBack(f: Front, new2: Ptr): Back {
    Back(None, if f.next.None? then None else new2, Pointers(f.toWrite + [f.cur]))
  }

  function Swap(s: State): State {
    if s.back.new1.None? then s.(pc := Crashed(NullBuffer))
    else
      s.(front := SwapFront(s.front, s.back.new1.value, s.back.new2),
         back := SwapBack(s.front, s.back.new2),
         pc := Swapped,
         log := s.log.(swapped := |Accepted(s.log.appended)|))
  }

  /** The loop condition, the three asserts, and entering the lock. */
  function Head(s: State): State {
    if !s.running then s.(pc := Exited)
    else if !SpareReady(s.back.new1) || !SpareReady(s.back.new2) || s.back.temp != [] then
      s.(pc := Crashed(AssertFailed))
    else if s.front.toWrite == [] then s.(pc := Waiting)
    else Swap(s)
  }

  /** The self-protection branch erases up to the end of another vector. */
  function CheckBatch(s: State): State {
    s.(pc := if |s.back.temp| > MAX_BATCH then Crashed(ForeignIterator) else Writing(0))
  }

  function WriteOne(s: State, k: nat): State
    requires k < |s.back.temp|
  {
    match s.back.temp[k]
    case None => s.(pc := Crashed(NullBuffer))
    case Some(b) =>
      s.(pc := Writing(k + 1),
         log := s.log.(file := s.log.file + Content(b), written := s.log.written + |b.msgs|))
  }

  /** std::vector<unique_ptr>::resize: growing pads with null pointers. */
  function Resize(pool: seq<Ptr>, n: nat): seq<Ptr> {
    if |pool| >= n then pool[..n] else pool + seq(n - |pool|, _ => None)
  }

  datatype Refilled = Bad(why: Fault) | Good(spare: Ptr, pool: seq<Ptr>)

  /** Take the last buffer of the pool when the spare is gone. */
  function Refill(spare: Ptr, pool: seq<Ptr>): Refilled {
    if spare.Some? then Good(spare, pool)
    else if pool == [] then Bad(EmptyPool)
    else
      match pool[|pool| - 1]
      case None => Bad(NullBuffer)
      case Some(b) => Good(Some(b.(msgs := [])), pool[..|pool| - 1])
  }

  datatype Recycled = Fault(why: Fault) | Ready(back: Back)

  /** Trim and refill. The guard reads `waiting`, the length of the producers' vector, as the code does. */
  function RecycleBack(b: Back, waiting: nat): Recycled {
    var kept := if waiting > 2 then Resize(b.temp, 2) else b.temp;
    match Refill(b.new1, kept)
    case Bad(why) => Fault(why)
    case Good(spare1, rest) =>
      match Refill(b.new2, rest)
      case Bad(why) => Fault(why)
      case Good(spare2, _) => Ready(Back(spare1, spare2, []))
  }

  function Recycle(s: State): State {
    match RecycleBack(s.back, |s.front.toWrite|)
    case Fault(why) => s.(pc := Crashed(why))
    case Ready(back) => s.(back := back, pc := AtHead)
  }

  function Consume(s: State): State {
    match s.pc
    case AtHead => Head(s)
    case Waiting => Swap(s)
    case Swapped => CheckBatch(s)
    case Writing(k) => if k < |s.back.temp| then WriteOne(s, k) else Recycle(s)
    case Exited => s
    case Crashed(_) => s
  }

  datatype Action = Produce(msg: Bytes) | Stop | Step

  function Next(s: State, a: Action): State {
    if s.pc.Crashed? then s
    else
      match a
      case Produce(msg) => Append(s, msg)
      case Stop => s.(running := false)
      case Step => Consume(s)
  }

  function Exec(s: State, acts: seq<Action>): State
    decreases |acts|
  {
    if acts == [] then s else Exec(Next(s, acts[0]), acts[1..])
  }

  // ------------------------------------------------------------ invariant

  function MessageLists(bufs: seq<Buf>): seq<seq<Bytes>> {
    seq(|bufs|, i requires 0 <= i < |bufs| => bufs[i].msgs)
  }

  /** The messages held by a list of buffers, in order. */
  function Messages(bufs: seq<Buf>): seq<Bytes> {
    Flatten(MessageLists(bufs))
  }

  function Deref(ptrs: seq<Ptr>): seq<Buf>
    requires forall p | p in ptrs :: p.Some?
  {
    seq(|ptrs|, i requires 0 <= i < |ptrs| => ptrs[i].value)
  }

  function Ids(bufs: seq<Buf>): seq<nat> {
    seq(|bufs|, i requires 0 <= i < |bufs| => bufs[i].id)
  }

  function PtrBag(p: Ptr): multiset<nat> {
    if p.Some? then multiset{p.value.id} else multiset{}
  }

  predicate AllSet(ptrs: seq<Ptr>) {
    forall p | p in ptrs :: p.Some?
  }

  /** The identities of every buffer some pointer owns, with multiplicity. */
  function Owned(f: Front, b: Back): multiset<nat>
    requires AllSet(b.temp)
  {
    multiset{f.cur.id} + PtrBag(f.next) + multiset(Ids(f.toWrite)) +
    PtrBag(b.new1) + PtrBag(b.new2) + multiset(Ids(Deref(b.temp)))
  }

  /** No two owners share a buffer. */
  ghost predicate Ownership(f: Front, b: Back)
    requires AllSet(b.temp)
  {
    forall id :: Owned(f, b)[id] <= 1 && (id in Owned(f, b) ==> id < f.created)
  }

  predicate EmptyIfSet(p: Ptr) {
    p.Some? ==> p.value.msgs == []
  }

  predicate FrontSupply(f: Front) {
    EmptyIfSet(f.next) && (f.next.None? ==> f.toWrite != [])
  }

  predicate BackSupply(b: Back, pc: Pc) {
    && EmptyIfSet(b.new1) && EmptyIfSet(b.new2) && AllSet(b.temp)
    && match pc
       case AtHead | Waiting | Exited => b.new1.Some? && b.new2.Some? && b.temp == []
       case Swapped => b.new1.None? && b.temp != [] && (b.new2.None? ==> |b.temp| >= 2)
       case Writing(k) =>
         && b.new1.None? && b.temp != [] && (b.new2.None? ==> |b.temp| >= 2)
         && k <= |b.temp| <= MAX_BATCH
       case Crashed(_) => false
  }

  function Done(pc: Pc, size: nat): nat
    ensures Done(pc, size) <= size
  {
    match pc
    case Writing(k) => if k <= size then k else size
    case _ => 0
  }

  /** The part of the batch that is not in the file yet. */
  function Unwritten(b: Back, pc: Pc): seq<Buf>
    requires AllSet(b.temp)
  {
    Deref(b.temp)[Done(pc, |b.temp|)..]
  }

  function FrontMessages(f: Front): seq<Bytes> {
    Messages(f.toWrite) + f.cur.msgs
  }

  /** The file, the rest of the batch and the front end split the stream in order. */
  predicate Split(log: Log, unwritten: seq<Bytes>, front: seq<Bytes>) {
    var acc := Accepted(log.appended);
    && log.written <= log.swapped <= |acc|
    && log.file == Flatten(acc[..log.written])
    && unwritten == acc[log.written..log.swapped]
    && front == acc[log.swapped..]
  }

  /**
   * There are always enough buffers to refill both spares, no buffer has
   * two owners, and nothing of the stream is lost, doubled or reordered.
   */
  ghost predicate Inv(s: State) {
    && FrontSupply(s.front) && BackSupply(s.back, s.pc)
    && Ownership(s.front, s.back)
    && Split(s.log, Messages(Unwritten(s.back, s.pc)), FrontMessages(s.front))
  }
}
