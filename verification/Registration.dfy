/** How one descriptor's registration evolves: the event mask a Filed asks for, the Filed's
    three-valued index, its slot in the Epoller's map and its slot in the kernel's interest table. */
module Registration {

  datatype Option<+T> = None | Some(value: T)

  /** An epoll event mask, one flag for each bit the reactor uses: EPOLLIN, EPOLLPRI, EPOLLOUT,
      EPOLLERR and EPOLLHUP. */
  datatype Mask = Mask(in_: bool, pri: bool, out: bool, err: bool, hup: bool) {
    function Or(m: Mask): Mask {
      Mask(in_ || m.in_, pri || m.pri, out || m.out, err || m.err, hup || m.hup)
    }

    function AndNot(m: Mask): Mask {
      Mask(in_ && !m.in_, pri && !m.pri, out && !m.out, err && !m.err, hup && !m.hup)
    }

    /** Do the two masks share a bit? */
    predicate Meets(m: Mask) {
      (in_ && m.in_) || (pri && m.pri) || (out && m.out) || (err && m.err) || (hup && m.hup)
    }
  }

  const NONE_EVENT := Mask(false, false, false, false, false)
  const READ_EVENT := Mask(true, true, false, false, false)
  const WRITE_EVENT := Mask(false, false, true, false, false)

  predicate IsWriting(events: Mask) {
    events.Meets(WRITE_EVENT)
  }

  predicate IsReading(events: Mask) {
    events.Meets(READ_EVENT)
  }

  datatype Index = New | Added | Deleted

  /** `mapped`: the Epoller's map sends this descriptor to this Filed.
      `kernel`: the mask stored in the kernel's interest table, if there is an entry.
      `failed`: how many epoll_ctl calls the kernel has rejected. */
  datatype Entry = Entry(events: Mask, index: Index, mapped: bool, kernel: Option<Mask>, failed: nat)

  const FRESH := Entry(NONE_EVENT, New, false, None, 0)

  datatype CtlOp = CtlAdd | CtlMod | CtlDel

  /** The kernel rejects an ADD of a present descriptor and a MOD or DEL of an absent one. */
  predicate CtlLegal(kernel: Option<Mask>, op: CtlOp) {
    op.CtlAdd? <==> kernel.None?
  }

  function Ctl(e: Entry, op: CtlOp): Entry {
    if !CtlLegal(e.kernel, op) then e.(failed := e.failed + 1)
    else match op
      case CtlAdd => e.(kernel := Some(e.events))
      case CtlMod => e.(kernel := Some(e.events))
      case CtlDel => e.(kernel := None)
  }

  /** Epoller::update. */
  function Update(e: Entry): Entry {
    match e.index
    case New => Ctl(e.(mapped := true, index := Added), CtlAdd)
    case Deleted => Ctl(e.(index := Added), CtlAdd)
    case Added =>
      if e.events == NONE_EVENT then Ctl(e, CtlDel).(index := Deleted) else Ctl(e, CtlMod)
  }

  /** Epoller::remove. */
  function Remove(e: Entry): Entry {
    var e1 := e.(mapped := false);
    (if e.index == Added then Ctl(e1, CtlDel) else e1).(index := New)
  }

  datatype Call = ReadOn | ReadOff | WriteOn | WriteOff | AllOff | Removal

  function NewEvents(events: Mask, call: Call): Mask {
    match call
    case ReadOn => events.Or(READ_EVENT)
    case ReadOff => events.AndNot(READ_EVENT)
    case WriteOn => events.Or(WRITE_EVENT)
    case WriteOff => events.AndNot(WRITE_EVENT)
    case AllOff => NONE_EVENT
    case Removal => events
  }

  /** One call on the Filed: change the mask, then let the Epoller act on it. */
  function Apply(e: Entry, call: Call): Entry {
    var e1 := e.(events := NewEvents(e.events, call));
    if call.Removal? then Remove(e1) else Update(e1)
  }

  lemma ReadBits(e: Mask)
    ensures e.Or(READ_EVENT) == e.(in_ := true, pri := true)
    ensures e.AndNot(READ_EVENT) == e.(in_ := false, pri := false)
  {
  }

  lemma WriteBits(e: Mask)
    ensures e.Or(WRITE_EVENT) == e.(out := true)
    ensures e.AndNot(WRITE_EVENT) == e.(out := false)
  {
  }

  /** What each call does to the mask, bit by bit: reading is EPOLLIN and EPOLLPRI together, writing
      is EPOLLOUT, and nothing but disableAll touches another bit. */
  lemma MaskLaw(e: Mask)
    ensures NewEvents(e, ReadOn) == e.(in_ := true, pri := true)
    ensures NewEvents(e, ReadOff) == e.(in_ := false, pri := false)
    ensures NewEvents(e, WriteOn) == e.(out := true)
    ensures NewEvents(e, WriteOff) == e.(out := false)
    ensures NewEvents(e, AllOff) == Mask(false, false, false, false, false)
    ensures NewEvents(e, Removal) == e
    ensures IsReading(e) <==> e.in_ || e.pri
    ensures IsWriting(e) <==> e.out
  {
  }

  /** The kernel rejects adding what is there, and changing or deleting what is not; a rejected call is
      counted and changes nothing. */
  lemma CtlLaw(e: Entry, op: CtlOp)
    ensures var rejected := if op.CtlAdd? then e.kernel.Some? else e.kernel.None?;
            Ctl(e, op) == if rejected then e.(failed := e.failed + 1)
                          else e.(kernel := if op.CtlDel? then None else Some(e.events))
  {
  }

  lemma ApplyUnfolds(e: Entry, call: Call)
    ensures Apply(e, call) == if call.Removal? then Remove(e)
                              else Update(e.(events := NewEvents(e.events, call)))
  {
  }

  function RunCalls(e: Entry, calls: seq<Call>): Entry
    decreases |calls|
  {
    if calls == [] then e else RunCalls(Apply(e, calls[0]), calls[1..])
  }

  /** Index, map slot and kernel slot agree; the mask the kernel holds may be out of date. */
  predicate Registered(e: Entry) {
    match e.index
    case New => !e.mapped && e.kernel.None?
    case Added => e.mapped && e.kernel.Some?
    case Deleted => e.mapped && e.kernel.None?
  }

  /** All three agree, and the kernel's mask is exactly what the Filed asks for. */
  predicate Agrees(e: Entry) {
    && Registered(e)
    && (e.index == Added ==> e.kernel == Some(e.events))
    && (e.index == Deleted ==> e.events == NONE_EVENT)
  }

  /** The events the kernel will report; no entry counts as no interest. */
  function Interest(e: Entry): Mask {
    if e.kernel.Some? then e.kernel.value else NONE_EVENT
  }

  /** The outcome of update: registered with the mask, unless the mask is empty and the Filed was
      registered already; in the Epoller's map in any case. */
  lemma UpdateLaw(e: Entry)
    requires Registered(e)
    ensures var gone := e.index == Added && e.events == Mask(false, false, false, false, false);
            Update(e) == Entry(e.events, if gone then Deleted else Added, true,
                               if gone then None else Some(e.events), e.failed)
  {
  }

  /** The outcome of remove: as if never registered, but for the mask, which stays. */
  lemma RemoveLaw(e: Entry)
    requires Registered(e)
    ensures Remove(e) == Entry(e.events, New, false, None, e.failed)
  {
  }

  lemma UpdateAgrees(e: Entry)
    requires Registered(e)
    ensures Agrees(Update(e)) && Update(e).failed == e.failed && Update(e).events == e.events
  {
  }

  lemma ApplyAgrees(e: Entry, call: Call)
    requires Agrees(e)
    ensures Agrees(Apply(e, call))
    ensures Apply(e, call).failed == e.failed
    ensures Apply(e, call).events == NewEvents(e.events, call)
  {
  }

  /** Whatever is called, in whatever order: no epoll_ctl call is ever rejected, the Filed is
      still mapped whenever its index is Deleted, and unless the index is New the kernel's
      interest is the Filed's mask. */
  lemma {:induction false} RunAgrees(e: Entry, calls: seq<Call>)
    requires Agrees(e)
    ensures RunCalls(e, calls).failed == e.failed
    ensures Agrees(RunCalls(e, calls))
    ensures RunCalls(e, calls).index != New ==> Interest(RunCalls(e, calls)) == RunCalls(e, calls).events
    ensures RunCalls(e, calls).index == Deleted ==> RunCalls(e, calls).mapped
    decreases |calls|
  {
    if calls != [] {
      ApplyAgrees(e, calls[0]);
      RunAgrees(Apply(e, calls[0]), calls[1..]);
    }
  }

  /** Repeating disableAll does not leave the descriptor out of the kernel: every second call
      adds it back with an empty mask, so hang-ups are reported again. */
  lemma {:induction false} RepeatedDisableAll(e: Entry, n: nat)
    requires Agrees(e) && e.index == Added && e.events != NONE_EVENT
    ensures var r := RunCalls(e, seq(n, _ => AllOff));
            r.kernel.Some? <==> n % 2 == 0
    decreases n
  {
    if n == 1 {
      assert seq(1, _ => AllOff) == [AllOff];
      assert RunCalls(e, [AllOff]) == RunCalls(Apply(e, AllOff), []);
    } else if n >= 2 {
      var calls := seq(n, _ => AllOff);
      var e1 := Apply(e, AllOff);
      DisableAllParity(e1, n - 1);
      assert calls[1..] == seq(n - 1, _ => AllOff);
    }
  }

  lemma {:induction false} DisableAllParity(e: Entry, n: nat)
    requires Agrees(e) && e.index != New && e.events == NONE_EVENT
    ensures var r := RunCalls(e, seq(n, _ => AllOff));
            r.kernel.Some? <==> (e.kernel.Some? <==> n % 2 == 0)
    decreases n
  {
    if n > 0 {
      var calls := seq(n, _ => AllOff);
      assert calls[1..] == seq(n - 1, _ => AllOff);
      DisableAllParity(Apply(e, AllOff), n - 1);
    }
  }
}
