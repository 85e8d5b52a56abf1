/**
 * The emulated serial device: the bulk transfers of `CdcAcmDevice` in `emulator/src/cdc-acm-device.ts`, as
 * functions on what it holds, what they keep over one attachment to a host, and the class proved against
 * them. What a control transfer answers is left open, but for the line-coding codec at the end.
 */
module CdcAcmDevice {
  import opened Basics

  datatype Read = Read(seqnum: nat, length: nat)

  datatype Write = OutTransfer(seqnum: nat, data: seq<Byte>)

  datatype Ending = Received(data: seq<Byte>) | Wrote(length: nat) | Answered | Stalled

  datatype Completion = Completion(seqnum: nat, ending: Ending)

  /** `completed` is what the host of this attachment was told; `fromHost` the writes accepted from it. */
  datatype Device = Device(
    isAttached: bool,
    waiting: seq<Read>,
    notifications: seq<nat>,
    held: seq<Write>,
    queued: seq<Byte>,
    isEcho: bool,
    isHung: bool,
    cap: Option<nat>,
    completed: seq<Completion>,
    fromHost: seq<Write>)

  datatype Transfer =
    | Control(seqnum: nat, isStalled: bool)
    | BulkOut(seqnum: nat, data: seq<Byte>)
    | BulkIn(seqnum: nat, length: nat)
    | Notification(seqnum: nat)
    | Unsupported(seqnum: nat)

  function Finish(d: Device, seqnum: nat, ending: Ending): Device {
    if d.isAttached then d.(completed := d.completed + [Completion(seqnum, ending)]) else d
  }

  function Limit(read: Read, cap: Option<nat>): nat {
    if cap.Some? && cap.value < read.length then cap.value else read.length
  }

  /** `#deliverToHost`: the oldest reads are completed for as long as bytes are queued. */
  function Deliver(d: Device): Device
    decreases |d.waiting|
  {
    if d.waiting == [] || d.queued == [] then d
    else Deliver(DeliverOne(d))
  }

  function DeliverOne(d: Device): Device
    requires d.waiting != []
  {
    var read := d.waiting[0];
    var n := if Limit(read, d.cap) <= |d.queued| then Limit(read, d.cap) else |d.queued|;
    Finish(d.(waiting := d.waiting[1..], queued := d.queued[n..]), read.seqnum, Received(d.queued[..n]))
  }

  function QueueToHost(d: Device, bytes: seq<Byte>): Device {
    if bytes == [] then d else Deliver(d.(queued := d.queued + bytes))
  }

  function Accept(d: Device, w: Write): Device {
    var d' := Finish(d.(fromHost := d.fromHost + [w]), w.seqnum, Wrote(|w.data|));
    if d.isEcho && d.isAttached then QueueToHost(d', w.data) else d'
  }

  function AcceptAll(d: Device, ws: seq<Write>): Device
    decreases |ws|
  {
    if ws == [] then d else AcceptAll(Accept(d, ws[0]), ws[1..])
  }

  function Submit(d: Device, t: Transfer): Device {
    match t
    case Control(seqnum, isStalled) => Finish(d, seqnum, if isStalled then Stalled else Answered)
    case BulkOut(seqnum, data) =>
      if d.isHung then d.(held := d.held + [OutTransfer(seqnum, data)]) else Accept(d, OutTransfer(seqnum, data))
    case BulkIn(seqnum, length) => Deliver(d.(waiting := d.waiting + [Read(seqnum, length)]))
    case Notification(seqnum) => d.(notifications := d.notifications + [seqnum])
    case Unsupported(seqnum) => Finish(d, seqnum, Stalled)
  }

  function WithoutRead(rs: seq<Read>, target: nat): seq<Read> {
    if rs == [] then []
    else if rs[0].seqnum == target then WithoutRead(rs[1..], target)
    else [rs[0]] + WithoutRead(rs[1..], target)
  }

  function WithoutWrite(ws: seq<Write>, target: nat): seq<Write> {
    if ws == [] then []
    else if ws[0].seqnum == target then WithoutWrite(ws[1..], target)
    else [ws[0]] + WithoutWrite(ws[1..], target)
  }

  function Unlink(d: Device, target: nat): Device {
    d.(waiting := WithoutRead(d.waiting, target), notifications := Without(d.notifications, target),
       held := WithoutWrite(d.held, target))
  }

  function Resume(d: Device): Device { AcceptAll(d.(isHung := false, held := []), d.held) }

  datatype Op =
    | DoSubmit(transfer: Transfer)
    | DoUnlink(target: nat)
    | Inject(bytes: seq<Byte>)
    | SetEcho(isEcho: bool)
    | SetCap(cap: Option<nat>)
    | Hang
    | DoResume

  function Apply(d: Device, op: Op): Device {
    match op
    case DoSubmit(t) => Submit(d, t)
    case DoUnlink(target) => Unlink(d, target)
    case Inject(bytes) => if d.isAttached then QueueToHost(d, bytes) else d
    case SetEcho(isEcho) => d.(isEcho := isEcho)
    case SetCap(cap) => if cap == Some(0) then d else Deliver(d.(cap := cap))
    case Hang => d.(isHung := true)
    case DoResume => Resume(d)
  }

  /** What a newly attached device holds: only its switches outlive an attachment. */
  function AttachedAfresh(d: Device): Device {
    d.(isAttached := true, waiting := [], notifications := [], held := [], queued := [], completed := [],
       fromHost := [])
  }

  // --- What is kept -------------------------------------------------------------------------------

  /** The bytes the host has received by its reads, in order. */
  function ReceivedBy(cs: seq<Completion>): seq<Byte> {
    if cs == [] then []
    else ReceivedBy(cs[..|cs| - 1]) + var e := cs[|cs| - 1].ending; if e.Received? then e.data else []
  }

  function BytesOf(ws: seq<Write>): seq<Byte> {
    if ws == [] then [] else ws[0].data + BytesOf(ws[1..])
  }

  /** The bytes an operation gives the device to send: what it echoes, and what is injected. */
  function Produced(d: Device, op: Op): seq<Byte> {
    match op
    case Inject(bytes) => bytes
    case DoSubmit(BulkOut(_, data)) => if d.isEcho && !d.isHung then data else []
    case DoResume => if d.isEcho then BytesOf(d.held) else []
    case _ => []
  }

  /** How often a transfer is known of: completed, or pending. */
  function Account(d: Device, x: nat): nat { Pending(d, x) + Completions(d.completed, x) }

  function Pending(d: Device, x: nat): nat {
    CountReads(d.waiting, x) + Count(d.notifications, x) + CountWrites(d.held, x)
  }

  function One(seqnum: nat, x: nat): nat { if seqnum == x then 1 else 0 }

  function CountReads(rs: seq<Read>, x: nat): nat {
    if rs == [] then 0 else One(rs[0].seqnum, x) + CountReads(rs[1..], x)
  }

  function Count(ns: seq<nat>, x: nat): nat {
    if ns == [] then 0 else One(ns[0], x) + Count(ns[1..], x)
  }

  function CountWrites(ws: seq<Write>, x: nat): nat {
    if ws == [] then 0 else One(ws[0].seqnum, x) + CountWrites(ws[1..], x)
  }

  function Completions(cs: seq<Completion>, x: nat): nat {
    if cs == [] then 0 else Completions(cs[..|cs| - 1], x) + One(cs[|cs| - 1].seqnum, x)
  }

  /** No read waits while bytes are queued, and writes are held only while the device hangs. */
  predicate Valid(d: Device) {
    && (d.waiting == [] || d.queued == [])
    && (d.held == [] || d.isHung)
    && d.cap != Some(0)
  }

  /** What delivering and accepting leave alone. */
  ghost predicate SameBut(d: Device, d': Device) {
    d' == d.(waiting := d'.waiting, queued := d'.queued, completed := d'.completed, fromHost := d'.fromHost)
  }

  /** Everything on its way to the host: what it has received, and what waits for it. */
  function ToHost(d: Device): seq<Byte> { ReceivedBy(d.completed) + d.queued }

  function Numbers(d: Device, x: nat): nat { CountReads(d.waiting, x) + Completions(d.completed, x) }

  predicate IsSettled(d: Device) { d.waiting == [] || d.queued == [] }

  lemma FinishTells(d: Device, seqnum: nat, ending: Ending, x: nat)
    requires d.isAttached
    ensures var d' := Finish(d, seqnum, ending);
            && ReceivedBy(d'.completed) == ReceivedBy(d.completed) + (if ending.Received? then ending.data else [])
            && Completions(d'.completed, x) == Completions(d.completed, x) + One(seqnum, x)
  {
    var d' := Finish(d, seqnum, ending);
    assert d'.completed[..|d.completed|] == d.completed;
  }

  lemma DeliverOneConserves(d: Device, x: nat)
    requires d.isAttached && d.waiting != []
    ensures ToHost(DeliverOne(d)) == ToHost(d) && Numbers(DeliverOne(d), x) == Numbers(d, x)
    ensures SameBut(d, DeliverOne(d))
  {
    var read := d.waiting[0];
    var n := if Limit(read, d.cap) <= |d.queued| then Limit(read, d.cap) else |d.queued|;
    FinishTells(d.(waiting := d.waiting[1..], queued := d.queued[n..]), read.seqnum, Received(d.queued[..n]), x);
    Reassociate(ReceivedBy(d.completed), d.queued, n);
  }

  lemma Reassociate(a: seq<Byte>, b: seq<Byte>, n: nat)
    requires n <= |b|
    ensures a + b[..n] + b[n..] == a + b
  {
  }

  /** Delivering moves bytes and transfers, makes none and loses none, and goes on for as long as it can. */
  lemma {:induction false} DeliverConserves(d: Device, x: nat)
    requires d.isAttached
    ensures ToHost(Deliver(d)) == ToHost(d) && Numbers(Deliver(d), x) == Numbers(d, x)
    ensures IsSettled(Deliver(d)) && SameBut(d, Deliver(d)) && Deliver(d).fromHost == d.fromHost
    decreases |d.waiting|
  {
    if d.waiting != [] && d.queued != [] {
      DeliverOneConserves(d, x);
      DeliverConserves(DeliverOne(d), x);
    }
  }

  lemma QueueConserves(d: Device, bytes: seq<Byte>, x: nat)
    requires d.isAttached && IsSettled(d)
    ensures var d' := QueueToHost(d, bytes);
            && ToHost(d') == ToHost(d) + bytes && Numbers(d', x) == Numbers(d, x)
            && IsSettled(d') && SameBut(d, d') && d'.fromHost == d.fromHost
  {
    DeliverConserves(d.(queued := d.queued + bytes), x);
    assert ReceivedBy(d.completed) + (d.queued + bytes) == ToHost(d) + bytes;
  }

  function Echoed(d: Device, data: seq<Byte>): seq<Byte> { if d.isEcho then data else [] }

  lemma AcceptConserves(d: Device, w: Write, x: nat)
    requires d.isAttached && IsSettled(d)
    ensures var d' := Accept(d, w);
            && ToHost(d') == ToHost(d) + Echoed(d, w.data) && Numbers(d', x) == Numbers(d, x) + One(w.seqnum, x)
            && IsSettled(d') && SameBut(d, d') && d'.fromHost == d.fromHost + [w]
  {
    var d1 := d.(fromHost := d.fromHost + [w]);
    var d2 := Finish(d1, w.seqnum, Wrote(|w.data|));
    FinishTells(d1, w.seqnum, Wrote(|w.data|), x);
    assert ToHost(d2) == ToHost(d) && Numbers(d2, x) == Numbers(d, x) + One(w.seqnum, x);
    if d.isEcho { QueueConserves(d2, w.data, x); }
  }

  lemma {:induction false} AcceptAllConserves(d: Device, ws: seq<Write>, x: nat)
    requires d.isAttached && IsSettled(d)
    ensures var d' := AcceptAll(d, ws);
            && ToHost(d') == ToHost(d) + Echoed(d, BytesOf(ws)) && Numbers(d', x) == Numbers(d, x) + CountWrites(ws, x)
            && IsSettled(d') && SameBut(d, d') && d'.fromHost == d.fromHost + ws
    decreases |ws|
  {
    if ws != [] {
      var d1 := Accept(d, ws[0]);
      AcceptConserves(d, ws[0], x);
      AcceptAllConserves(d1, ws[1..], x);
      FirstAndRest(d.fromHost, ws);
      EchoesAdd(d, ToHost(d), ws);
    }
  }

  lemma FirstAndRest(before: seq<Write>, ws: seq<Write>)
    requires ws != []
    ensures before + [ws[0]] + ws[1..] == before + ws
  {
  }

  lemma EchoesAdd(d: Device, before: seq<Byte>, ws: seq<Write>)
    requires ws != []
    ensures before + Echoed(d, ws[0].data) + Echoed(d, BytesOf(ws[1..])) == before + Echoed(d, BytesOf(ws))
  {
  }

  // --- Each operation -------------------------------------------------------------------------------

  /** What an operation does to the number of times a transfer is known of: only a submission adds to it. */
  function Submitted(op: Op, x: nat): nat { if op.DoSubmit? then One(op.transfer.seqnum, x) else 0 }

  /** No read waits while bytes are queued, and the bytes for the host are the ones produced, in order. */
  lemma ApplyConserves(d: Device, op: Op, x: nat)
    requires d.isAttached && Valid(d)
    ensures Valid(Apply(d, op)) && Apply(d, op).isAttached
    ensures ToHost(Apply(d, op)) == ToHost(d) + Produced(d, op)
    ensures !op.DoUnlink? ==> Account(Apply(d, op), x) == Account(d, x) + Submitted(op, x)
  {
    match op
    case DoSubmit(t) => SubmitConserves(d, t, x);
    case DoUnlink(target) => UnlinkKeepsBytes(d, target);
    case Inject(bytes) => QueueConserves(d, bytes, x);
    case SetCap(cap) => if cap != Some(0) { DeliverConserves(d.(cap := cap), x); }
    case DoResume => AcceptAllConserves(d.(isHung := false, held := []), d.held, x);
    case _ =>
  }

  lemma SubmitOutConserves(d: Device, t: Transfer, x: nat)
    requires d.isAttached && Valid(d) && t.BulkOut?
    ensures var d' := Submit(d, t);
            && Valid(d') && d'.isAttached && ToHost(d') == ToHost(d) + Produced(d, DoSubmit(t))
            && Account(d', x) == Account(d, x) + One(t.seqnum, x)
  {
    if d.isHung {
      CountWritesOneMore(d.held, OutTransfer(t.seqnum, t.data), x);
    } else {
      AcceptConserves(d, OutTransfer(t.seqnum, t.data), x);
    }
  }

  lemma SubmitInConserves(d: Device, t: Transfer, x: nat)
    requires d.isAttached && Valid(d) && t.BulkIn?
    ensures var d' := Submit(d, t);
            Valid(d') && d'.isAttached && ToHost(d') == ToHost(d) && Account(d', x) == Account(d, x) + One(t.seqnum, x)
  {
    CountReadsOneMore(d.waiting, Read(t.seqnum, t.length), x);
    DeliverConserves(d.(waiting := d.waiting + [Read(t.seqnum, t.length)]), x);
  }

  lemma SubmitNotificationConserves(d: Device, t: Transfer, x: nat)
    requires d.isAttached && Valid(d) && t.Notification?
    ensures var d' := Submit(d, t);
            Valid(d') && d'.isAttached && ToHost(d') == ToHost(d) && Account(d', x) == Account(d, x) + One(t.seqnum, x)
  {
    CountOneMore(d.notifications, t.seqnum, x);
  }

  /** A request is answered at once. */
  lemma SubmitAnsweredConserves(d: Device, t: Transfer, x: nat)
    requires d.isAttached && Valid(d) && (t.Control? || t.Unsupported?)
    ensures var d' := Submit(d, t);
            Valid(d') && d'.isAttached && ToHost(d') == ToHost(d) && Account(d', x) == Account(d, x) + One(t.seqnum, x)
  {
    FinishTells(d, t.seqnum, if t.Control? && !t.isStalled then Answered else Stalled, x);
  }

  lemma SubmitConserves(d: Device, t: Transfer, x: nat)
    requires d.isAttached && Valid(d)
    ensures var d' := Submit(d, t);
            && Valid(d') && d'.isAttached && ToHost(d') == ToHost(d) + Produced(d, DoSubmit(t))
            && Account(d', x) == Account(d, x) + One(t.seqnum, x)
  {
    match t
    case Control(_, _) => SubmitAnsweredConserves(d, t, x);
    case BulkOut(_, _) => SubmitOutConserves(d, t, x);
    case BulkIn(_, _) => SubmitInConserves(d, t, x);
    case Notification(_) => SubmitNotificationConserves(d, t, x);
    case Unsupported(_) => SubmitAnsweredConserves(d, t, x);
  }

  lemma {:induction false} CountReadsOneMore(rs: seq<Read>, r: Read, x: nat)
    ensures CountReads(rs + [r], x) == CountReads(rs, x) + One(r.seqnum, x)
  {
    if rs != [] {
      CountReadsOneMore(rs[1..], r, x);
      assert (rs + [r])[1..] == rs[1..] + [r];
    }
  }

  lemma {:induction false} CountWritesOneMore(ws: seq<Write>, w: Write, x: nat)
    ensures CountWrites(ws + [w], x) == CountWrites(ws, x) + One(w.seqnum, x)
  {
    if ws != [] {
      CountWritesOneMore(ws[1..], w, x);
      assert (ws + [w])[1..] == ws[1..] + [w];
    }
  }

  lemma {:induction false} CountOneMore(ns: seq<nat>, n: nat, x: nat)
    ensures Count(ns + [n], x) == Count(ns, x) + One(n, x)
  {
    if ns != [] {
      CountOneMore(ns[1..], n, x);
      assert (ns + [n])[1..] == ns[1..] + [n];
    }
  }

  lemma UnlinkKeepsBytes(d: Device, target: nat)
    requires Valid(d)
    ensures Valid(Unlink(d, target)) && ToHost(Unlink(d, target)) == ToHost(d)
  {
    if d.waiting == [] { assert WithoutRead(d.waiting, target) == []; }
  }

  lemma {:induction false} WithoutReadCounts(rs: seq<Read>, target: nat, x: nat)
    ensures CountReads(WithoutRead(rs, target), x) == if x == target then 0 else CountReads(rs, x)
    ensures |WithoutRead(rs, target)| == |rs| - CountReads(rs, target)
  {
    if rs != [] { WithoutReadCounts(rs[1..], target, x); }
  }

  lemma {:induction false} WithoutWriteCounts(ws: seq<Write>, target: nat, x: nat)
    ensures CountWrites(WithoutWrite(ws, target), x) == if x == target then 0 else CountWrites(ws, x)
    ensures |WithoutWrite(ws, target)| == |ws| - CountWrites(ws, target)
  {
    if ws != [] { WithoutWriteCounts(ws[1..], target, x); }
  }

  lemma {:induction false} WithoutCounts(ns: seq<nat>, target: nat, x: nat)
    ensures Count(Without(ns, target), x) == if x == target then 0 else Count(ns, x)
    ensures |Without(ns, target)| == |ns| - Count(ns, target)
  {
    if ns != [] { WithoutCounts(ns[1..], target, x); }
  }

  /** An unlink takes out every pending transfer of that number, and no other. */
  lemma UnlinkTakesOut(d: Device, target: nat, x: nat)
    ensures Pending(Unlink(d, target), x) == if x == target then 0 else Pending(d, x)
    ensures Unlink(d, target).completed == d.completed
    ensures var d' := Unlink(d, target);
            (|d'.waiting| + |d'.notifications| + |d'.held| < |d.waiting| + |d.notifications| + |d.held|
             <==> Pending(d, target) > 0)
  {
    WithoutReadCounts(d.waiting, target, x);
    WithoutWriteCounts(d.held, target, x);
    WithoutCounts(d.notifications, target, x);
  }

  // --- Over one attachment --------------------------------------------------------------------------

  ghost predicate IsRun(start: Device, run: seq<Device>, ops: seq<Op>) {
    && |run| == |ops| + 1 && run[0] == AttachedAfresh(start) && start.cap != Some(0)
    && forall i :: 0 <= i < |ops| ==> run[i + 1] == Apply(run[i], ops[i])
  }

  function ProducedBy(run: seq<Device>, ops: seq<Op>, n: nat): seq<Byte>
    requires n <= |ops| && |run| == |ops| + 1
  {
    if n == 0 then [] else ProducedBy(run, ops, n - 1) + Produced(run[n - 1], ops[n - 1])
  }

  function SubmittedBy(ops: seq<Op>, n: nat, x: nat): nat
    requires n <= |ops|
  {
    if n == 0 then 0 else SubmittedBy(ops, n - 1, x) + Submitted(ops[n - 1], x)
  }

  /**
   * What the host has received, followed by what waits for it, is what the device echoed and injected, in
   * order, byte for byte; and no read waits while there is anything to answer it with.
   */
  lemma {:induction false} BytesAreConserved(start: Device, run: seq<Device>, ops: seq<Op>, n: nat)
    requires IsRun(start, run, ops) && n <= |ops|
    ensures Valid(run[n]) && run[n].isAttached
    ensures ReceivedBy(run[n].completed) + run[n].queued == ProducedBy(run, ops, n)
    ensures run[n].waiting == [] || run[n].queued == []
    decreases n
  {
    if n > 0 {
      BytesAreConserved(start, run, ops, n - 1);
      ApplyConserves(run[n - 1], ops[n - 1], 0);
    }
  }

  lemma {:induction false} AccountIsBounded(start: Device, run: seq<Device>, ops: seq<Op>, n: nat, x: nat)
    requires IsRun(start, run, ops) && n <= |ops|
    ensures Account(run[n], x) <= SubmittedBy(ops, n, x)
    decreases n
  {
    if n > 0 {
      AccountIsBounded(start, run, ops, n - 1, x);
      BytesAreConserved(start, run, ops, n - 1);
      ApplyConserves(run[n - 1], ops[n - 1], x);
      if ops[n - 1].DoUnlink? { UnlinkTakesOut(run[n - 1], ops[n - 1].target, x); }
    }
  }

  /** A transfer submitted once completes at most once, and is not pending once it has. */
  lemma CompletesAtMostOnce(start: Device, run: seq<Device>, ops: seq<Op>, n: nat, x: nat)
    requires IsRun(start, run, ops) && n <= |ops| && SubmittedBy(ops, n, x) <= 1
    ensures Completions(run[n].completed, x) + Pending(run[n], x) <= 1
  {
    AccountIsBounded(start, run, ops, n, x);
  }

  lemma {:induction false} SubmittedGrows(ops: seq<Op>, m: nat, n: nat, x: nat)
    requires m <= n <= |ops|
    ensures SubmittedBy(ops, m, x) <= SubmittedBy(ops, n, x)
  {
    if m < n { SubmittedGrows(ops, m, n - 1, x); }
  }

  /** Once an unlink was answered as successful, the transfer is gone: it never completes. */
  lemma {:induction false} NeverCompletesAfterUnlink(start: Device, run: seq<Device>, ops: seq<Op>, m: nat, n: nat,
                                                     x: nat)
    requires IsRun(start, run, ops) && m < n <= |ops| && SubmittedBy(ops, n, x) <= 1
    requires ops[m] == DoUnlink(x) && Pending(run[m], x) > 0
    ensures Completions(run[n].completed, x) == 0 && Pending(run[n], x) == 0
    ensures SubmittedBy(ops, n, x) == SubmittedBy(ops, m, x)
    decreases n
  {
    SubmittedGrows(ops, m, n - 1, x);
    AccountIsBounded(start, run, ops, m, x);
    if n == m + 1 {
      UnlinkTakesOut(run[m], x, x);
    } else {
      NeverCompletesAfterUnlink(start, run, ops, m, n - 1, x);
      BytesAreConserved(start, run, ops, n - 1);
      ApplyConserves(run[n - 1], ops[n - 1], x);
      if ops[n - 1].DoUnlink? { UnlinkTakesOut(run[n - 1], ops[n - 1].target, x); }
    }
  }

  // --- The order of writes ----------------------------------------------------------------------------

  ghost predicate IsSubsequence<T>(a: seq<T>, b: seq<T>)
    decreases |b|
  {
    || a == []
    || (b != [] && IsSubsequence(a, b[..|b| - 1]))
    || (b != [] && a[|a| - 1] == b[|b| - 1] && IsSubsequence(a[..|a| - 1], b[..|b| - 1]))
  }

  lemma BothLonger<T>(a: seq<T>, b: seq<T>, x: T)
    requires IsSubsequence(a, b)
    ensures IsSubsequence(a + [x], b + [x])
  {
    assert (a + [x])[..|a|] == a && (b + [x])[..|b|] == b;
  }

  lemma {:induction false} DropOne<T>(a: seq<T>, x: T, more: seq<T>, b: seq<T>)
    requires IsSubsequence(a + [x] + more, b)
    ensures IsSubsequence(a + more, b)
    decreases |b|
  {
    var s, b' := a + [x] + more, b[..|b| - 1];
    if IsSubsequence(s, b') {
      DropOne(a, x, more, b');
    } else if more == [] {
      assert s[..|s| - 1] == a && a + more == a;
    } else {
      var more' := more[..|more| - 1];
      assert s[..|s| - 1] == a + [x] + more';
      DropOne(a, x, more', b');
      assert (a + more)[..|a + more| - 1] == a + more';
    }
  }

  lemma {:induction false} DropAll(a: seq<Write>, ws: seq<Write>, target: nat, b: seq<Write>)
    requires IsSubsequence(a + ws, b)
    ensures IsSubsequence(a + WithoutWrite(ws, target), b)
    decreases |ws|
  {
    if ws != [] {
      FirstAndRest(a, ws);
      if ws[0].seqnum == target {
        DropOne(a, ws[0], ws[1..], b);
        DropAll(a, ws[1..], target, b);
      } else {
        DropAll(a + [ws[0]], ws[1..], target, b);
        FirstAndRest(a, WithoutWrite(ws, target));
      }
    }
  }

  function WritesOf(ops: seq<Op>, n: nat): seq<Write>
    requires n <= |ops|
  {
    if n == 0 then []
    else
      WritesOf(ops, n - 1) +
      match ops[n - 1]
      case DoSubmit(BulkOut(seqnum, data)) => [OutTransfer(seqnum, data)]
      case _ => []
  }

  /** A write joins the end of those accepted and held; nothing but an unlink takes one out. */
  lemma ApplyKeepsOrder(d: Device, op: Op)
    requires d.isAttached && Valid(d)
    ensures var d' := Apply(d, op);
            d'.fromHost + d'.held == match op
              case DoSubmit(BulkOut(seqnum, data)) => d.fromHost + d.held + [OutTransfer(seqnum, data)]
              case DoUnlink(target) => d.fromHost + WithoutWrite(d.held, target)
              case _ => d.fromHost + d.held
  {
    match op
    case DoSubmit(BulkOut(seqnum, data)) => if !d.isHung { AcceptConserves(d, OutTransfer(seqnum, data), 0); }
    case DoSubmit(BulkIn(seqnum, length)) => DeliverConserves(d.(waiting := d.waiting + [Read(seqnum, length)]), 0);
    case Inject(bytes) => QueueConserves(d, bytes, 0);
    case SetCap(cap) => if cap != Some(0) { DeliverConserves(d.(cap := cap), 0); }
    case DoResume => AcceptAllConserves(d.(isHung := false, held := []), d.held, 0);
    case _ =>
  }

  /** However often the device hangs and resumes, it accepts writes in the order they were submitted. */
  lemma {:induction false} WritesKeepTheirOrder(start: Device, run: seq<Device>, ops: seq<Op>, n: nat)
    requires IsRun(start, run, ops) && n <= |ops|
    ensures IsSubsequence(run[n].fromHost + run[n].held, WritesOf(ops, n))
    decreases n
  {
    if n > 0 {
      var d, op := run[n - 1], ops[n - 1];
      WritesKeepTheirOrder(start, run, ops, n - 1);
      BytesAreConserved(start, run, ops, n - 1);
      ApplyKeepsOrder(d, op);
      assert WritesOf(ops, n - 1) + [] == WritesOf(ops, n - 1);
      match op
      case DoSubmit(BulkOut(seqnum, data)) =>
        BothLonger(d.fromHost + d.held, WritesOf(ops, n - 1), OutTransfer(seqnum, data));
      case DoUnlink(target) => DropAll(d.fromHost, d.held, target, WritesOf(ops, n - 1));
      case _ =>
    }
  }

  lemma {:induction false} WithoutWriteKeepsOthers(ws: seq<Write>, target: nat, w: Write)
    requires w in ws && w.seqnum != target
    ensures w in WithoutWrite(ws, target)
  {
    if ws[0] != w {
      WithoutWriteKeepsOthers(ws[1..], target, w);
    }
  }

  /** A write that was submitted is accepted or held at every later point, unless it was unlinked in between. */
  lemma {:induction false} MissingWasUnlinked(start: Device, run: seq<Device>, ops: seq<Op>, k: nat, n: nat, w: Write)
    requires IsRun(start, run, ops) && k < n <= |ops| && ops[k] == DoSubmit(BulkOut(w.seqnum, w.data))
    ensures w in run[n].fromHost + run[n].held || exists m :: k < m < n && ops[m] == DoUnlink(w.seqnum)
    decreases n
  {
    var d, op := run[n - 1], ops[n - 1];
    BytesAreConserved(start, run, ops, n - 1);
    ApplyKeepsOrder(d, op);
    if k == n - 1 {
      assert w in [OutTransfer(w.seqnum, w.data)];
    } else {
      MissingWasUnlinked(start, run, ops, k, n - 1, w);
      if w in d.held && op.DoUnlink? && op.target != w.seqnum {
        WithoutWriteKeepsOthers(d.held, op.target, w);
      }
    }
  }

  // --- The class ----------------------------------------------------------------------------------------

  class CdcAcmDevice {
    var isAttached: bool
    var pendingReads: seq<Read>
    var pendingNotifications: seq<nat>
    var heldWrites: seq<Write>
    /** Bytes on their way to the host, in the pieces they were queued in. */
    var toHost: seq<seq<Byte>>
    var isEcho: bool
    var isHung: bool
    var maxChunkBytes: Option<nat>
    /** What the `complete` callback of the attachment was called with. */
    var completed: seq<Completion>
    ghost var fromHost: seq<Write>

    ghost function Value(): Device
      reads this
    {
      Device(isAttached, pendingReads, pendingNotifications, heldWrites, Flat(toHost), isEcho, isHung, maxChunkBytes,
             completed, fromHost)
    }

    ghost predicate NoEmptyPiece()
      reads this
    {
      forall i :: 0 <= i < |toHost| ==> toHost[i] != []
    }

    constructor ()
      ensures NoEmptyPiece() && !Value().isAttached && Valid(Value())
    {
      isAttached, pendingReads, pendingNotifications, heldWrites, toHost := false, [], [], [], [];
      isEcho, isHung, maxChunkBytes, completed, fromHost := true, false, None, [], [];
    }

    method Attach()
      requires NoEmptyPiece()
      modifies this
      ensures NoEmptyPiece() && Value() == AttachedAfresh(old(Value()))
    {
      isAttached, pendingReads, pendingNotifications, heldWrites, toHost := true, [], [], [], [];
      completed, fromHost := [], [];
    }

    method FinishTransfer(seqnum: nat, ending: Ending)
      modifies this`completed
      ensures Value() == Finish(old(Value()), seqnum, ending)
    {
      if isAttached { completed := completed + [Completion(seqnum, ending)]; }
    }

    /** Takes the first bytes, at most `limit` of them, out of the pieces they lie in. */
    method TakeToHost(limit: nat) returns (taken: seq<Byte>)
      requires NoEmptyPiece()
      modifies this`toHost
      ensures NoEmptyPiece()
      ensures |taken| == (if limit <= |old(Flat(toHost))| then limit else |old(Flat(toHost))|)
      ensures taken + Flat(toHost) == old(Flat(toHost))
    {
      taken := [];
      while toHost != [] && |taken| < limit
        invariant NoEmptyPiece() && |taken| <= limit
        invariant taken + Flat(toHost) == old(Flat(toHost))
        decreases |toHost|, limit - |taken|
      {
        var piece := toHost[0];
        var count := if |piece| <= limit - |taken| then |piece| else limit - |taken|;
        PieceIsCut(taken, toHost, count);
        taken := taken + piece[..count];
        if count == |piece| {
          toHost := toHost[1..];
        } else {
          toHost := [piece[count..]] + toHost[1..];
        }
      }
    }

    static lemma PieceIsCut(taken: seq<Byte>, pieces: seq<seq<Byte>>, count: nat)
      requires pieces != [] && count <= |pieces[0]|
      ensures taken + Flat(pieces) == taken + pieces[0][..count] + Flat([pieces[0][count..]] + pieces[1..])
      ensures count == |pieces[0]| ==> Flat([pieces[0][count..]] + pieces[1..]) == Flat(pieces[1..])
    {
      var piece, rest := pieces[0], Flat(pieces[1..]);
      assert piece == piece[..count] + piece[count..];
      assert taken + (piece + rest) == taken + piece[..count] + (piece[count..] + rest);
    }

    method DeliverToHost()
      requires NoEmptyPiece()
      modifies this`toHost, this`pendingReads, this`completed
      ensures NoEmptyPiece() && Value() == Deliver(old(Value()))
    {
      while pendingReads != [] && toHost != []
        invariant NoEmptyPiece() && Deliver(Value()) == Deliver(old(Value()))
        decreases |pendingReads|
      {
        ghost var before := Value();
        var read := pendingReads[0];
        var bytes := TakeToHost(Limit(read, maxChunkBytes));
        pendingReads := pendingReads[1..];
        FinishTransfer(read.seqnum, Received(bytes));
        assert before.queued[..|bytes|] == bytes && before.queued[|bytes|..] == Flat(toHost);
        assert Value() == DeliverOne(before);
      }
    }

    method QueueBytes(bytes: seq<Byte>)
      requires NoEmptyPiece()
      modifies this`toHost, this`pendingReads, this`completed
      ensures NoEmptyPiece() && Value() == QueueToHost(old(Value()), bytes)
    {
      if bytes == [] { return; }
      FlatOfSum(toHost, [bytes]);
      assert Flat([bytes]) == bytes;
      toHost := toHost + [bytes];
      DeliverToHost();
    }

    method WriteNow(w: Write)
      requires NoEmptyPiece() && !isHung
      modifies this`toHost, this`pendingReads, this`completed, this`fromHost
      ensures NoEmptyPiece() && Value() == Accept(old(Value()), w)
    {
      fromHost := fromHost + [w];
      FinishTransfer(w.seqnum, Wrote(|w.data|));
      if isEcho && isAttached { QueueBytes(w.data); }
    }

    method SubmitTransfer(t: Transfer)
      requires NoEmptyPiece()
      modifies this
      ensures NoEmptyPiece() && Value() == Submit(old(Value()), t)
    {
      match t
      case Control(seqnum, isStalled) => FinishTransfer(seqnum, if isStalled then Stalled else Answered);
      case BulkOut(seqnum, data) =>
        if isHung {
          heldWrites := heldWrites + [OutTransfer(seqnum, data)];
        } else {
          WriteNow(OutTransfer(seqnum, data));
        }
      case BulkIn(seqnum, length) =>
        pendingReads := pendingReads + [Read(seqnum, length)];
        DeliverToHost();
      case Notification(seqnum) => pendingNotifications := pendingNotifications + [seqnum];
      case Unsupported(seqnum) => FinishTransfer(seqnum, Stalled);
    }

    /** Whether a pending transfer was cancelled, told by what is left of the queues. */
    method UnlinkTransfer(target: nat) returns (wasPending: bool)
      requires NoEmptyPiece()
      modifies this
      ensures NoEmptyPiece() && Value() == Unlink(old(Value()), target)
      ensures wasPending <==> Pending(old(Value()), target) > 0
    {
      UnlinkTakesOut(Value(), target, target);
      var lengthBefore := |pendingReads| + |pendingNotifications| + |heldWrites|;
      pendingReads := WithoutRead(pendingReads, target);
      pendingNotifications := Without(pendingNotifications, target);
      heldWrites := WithoutWrite(heldWrites, target);
      wasPending := |pendingReads| + |pendingNotifications| + |heldWrites| < lengthBefore;
    }

    /** Injecting bytes is refused while no host is attached, and a cap of no bytes always is. */
    method SendToHost(bytes: seq<Byte>) returns (ok: bool)
      requires NoEmptyPiece()
      modifies this
      ensures NoEmptyPiece() && ok == old(isAttached) && Value() == Apply(old(Value()), Inject(bytes))
    {
      ok := isAttached;
      if ok { QueueBytes(bytes); }
    }

    method SetMaxChunkBytes(cap: Option<nat>) returns (ok: bool)
      requires NoEmptyPiece()
      modifies this
      ensures NoEmptyPiece() && ok == (cap != Some(0)) && Value() == Apply(old(Value()), SetCap(cap))
    {
      ok := cap != Some(0);
      if ok {
        maxChunkBytes := cap;
        DeliverToHost();
      }
    }

    method ResumeWrites()
      requires NoEmptyPiece()
      modifies this
      ensures NoEmptyPiece() && Value() == Resume(old(Value()))
    {
      isHung := false;
      var held := heldWrites;
      heldWrites := [];
      var i := 0;
      while i < |held|
        invariant i <= |held| && NoEmptyPiece() && !isHung
        invariant AcceptAll(Value(), held[i..]) == Resume(old(Value()))
      {
        WriteNow(held[i]);
        i := i + 1;
      }
    }
  }
}
