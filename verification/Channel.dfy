/**
 * Byte-bounded channel: every item carries a byte charge against one shared counter.
 *
 * Senders, the receiver and the holders of received items run concurrently.  The model is
 * a state machine whose steps are the atomic actions of those threads, so a list of steps
 * is one interleaving.  A cell is one charge: a reservation a thread has just made or is
 * moving, or a live budgeted value.
 */
module Channel {
  import opened Machine
  import opened Wrappers

  datatype Place =
    | Reserving  // admitted, in a local variable, not yet inside a budgeted value
    | Sending    // a budgeted value the sender still owns
    | Queued     // a budgeted value in the channel
    | Held       // a budgeted value owned by a receiver, or a charge split from one
    | Dropped

  datatype Cell<T> = Cell(place: Place, item: Option<T>, charge: Size)

  datatype State<T> = State(
    used: Size, max: Size, slots: nat, connected: bool, cells: seq<Cell<T>>, queue: seq<nat>)

  datatype Step<T> =
    | Reserve(bytes: Size)                // try_reserve: one fetch_update
    | Wrap(cell: nat, item: T, to: Place) // Budgeted::new
    | Offer(cell: nat)                    // the bounded queue's try_send
    | Receive                             // recv, try_recv, recv_timeout
    | Disconnect                          // the receiver is dropped
    | TakeItem(cell: nat)                 // item.take() in into_inner, into_parts, try_map
    | MoveCharge(cell: nat)               // mem::replace(charged_bytes, 0) in into_parts, try_map
    | Drop(cell: nat)                     // Drop: one fetch_sub

  /** Bytes a cell keeps admitted. */
  function Live<T>(c: Cell<T>): nat {
    if c.place.Dropped? then 0 else c.charge
  }

  function LiveBytes<T>(cells: seq<Cell<T>>): nat {
    if cells == [] then 0 else LiveBytes(cells[..|cells| - 1]) + Live(cells[|cells| - 1])
  }

  /** The reservation is admitted: it is not larger than the budget, and it fits now. */
  predicate Admits<T>(s: State<T>, bytes: Size) {
    bytes <= s.max && CheckedAdd(s.used, bytes).Some? && s.used + bytes <= s.max
  }

  /** The atomic subtraction of a release, which wraps like the machine's. */
  function FetchSub(used: Size, bytes: Size): Size {
    if used >= bytes then used - bytes else used - bytes + SIZE_LIMIT
  }

  /** Which steps some thread can take. */
  predicate Enabled<T>(s: State<T>, e: Step<T>) {
    match e
    case Reserve(_) => true
    case Wrap(i, _, to) => i < |s.cells| && s.cells[i].place.Reserving? && (to.Sending? || to.Held?)
    case Offer(i) => i < |s.cells| && s.cells[i].place.Sending? && s.cells[i].item.Some?
    case Receive => s.connected && s.queue != []
    case Disconnect => s.connected
    case TakeItem(i) => Owned(s, i) && s.cells[i].item.Some?
    case MoveCharge(i) => Owned(s, i) && s.cells[i].item.None?
    case Drop(i) => Owned(s, i) || (!s.connected && s.queue != [] && s.queue[0] == i < |s.cells|)
  }

  /** A budgeted value owned by some thread. */
  predicate Owned<T>(s: State<T>, i: nat) {
    i < |s.cells| && (s.cells[i].place.Sending? || s.cells[i].place.Held?)
  }

  /** One step of one thread; a step no thread can take changes nothing. */
  function Next<T>(s: State<T>, e: Step<T>): State<T> {
    if !Enabled(s, e) then s else
    match e
    case Reserve(bytes) =>
      if Admits(s, bytes) then s.(used := s.used + bytes, cells := s.cells + [Cell(Reserving, None, bytes)]) else s
    case Wrap(i, item, to) => s.(cells := s.cells[i := Cell(to, Some(item), s.cells[i].charge)])
    case Offer(i) =>
      if s.connected && |s.queue| < s.slots
      then s.(cells := s.cells[i := s.cells[i].(place := Queued)], queue := s.queue + [i])
      else s
    case Receive =>
      if s.queue[0] < |s.cells|
      then s.(cells := s.cells[s.queue[0] := s.cells[s.queue[0]].(place := Held)], queue := s.queue[1..])
      else s
    case Disconnect => s.(connected := false)
    case TakeItem(i) => s.(cells := s.cells[i := s.cells[i].(item := None)])
    case MoveCharge(i) =>
      s.(cells := s.cells[i := s.cells[i].(charge := 0)] + [Cell(Reserving, None, s.cells[i].charge)])
    case Drop(i) =>
      s.(used := FetchSub(s.used, s.cells[i].charge),
         cells := s.cells[i := s.cells[i].(place := Dropped, item := None)],
         queue := if s.queue != [] && s.queue[0] == i then s.queue[1..] else s.queue)
  }

  // ---------------------------------------------------------------- conservation

  /** What every interleaving keeps. */
  ghost predicate Inv<T>(s: State<T>) {
    s.used == LiveBytes(s.cells) <= s.max && |s.queue| <= s.slots && QueueInv(s.cells, s.queue)
  }

  /** The queue lists the queued cells, each once. */
  ghost predicate QueueInv<T>(cells: seq<Cell<T>>, queue: seq<nat>) {
    && (forall k :: 0 <= k < |queue| ==> queue[k] < |cells| && cells[queue[k]].place.Queued?)
    && (forall j, k :: 0 <= j < k < |queue| ==> queue[j] != queue[k])
    && (forall i :: 0 <= i < |cells| && cells[i].place.Queued? ==> i in queue)
  }

  lemma QueueUntouched<T>(cells: seq<Cell<T>>, queue: seq<nat>, i: nat, c: Cell<T>)
    requires QueueInv(cells, queue) && i < |cells| && cells[i].place.Queued? == c.place.Queued?
    ensures QueueInv(cells[i := c], queue)
  {
  }

  lemma QueueGrows<T>(cells: seq<Cell<T>>, queue: seq<nat>, c: Cell<T>)
    requires QueueInv(cells, queue) && !c.place.Queued?
    ensures QueueInv(cells + [c], queue)
  {
  }

  lemma Enqueued<T>(cells: seq<Cell<T>>, queue: seq<nat>, i: nat, c: Cell<T>)
    requires QueueInv(cells, queue) && i < |cells| && !cells[i].place.Queued? && c.place.Queued?
    ensures QueueInv(cells[i := c], queue + [i])
  {
  }

  lemma Dequeued<T>(cells: seq<Cell<T>>, queue: seq<nat>, c: Cell<T>)
    requires QueueInv(cells, queue) && queue != [] && !c.place.Queued?
    ensures queue[0] < |cells|
    ensures QueueInv(cells[queue[0] := c], queue[1..])
  {
    assert queue == [queue[0]] + queue[1..];
  }

  lemma {:induction false} LiveBytesUpdate<T>(cells: seq<Cell<T>>, i: nat, c: Cell<T>)
    requires i < |cells|
    ensures LiveBytes(cells[i := c]) == LiveBytes(cells) - Live(cells[i]) + Live(c)
    decreases |cells|
  {
    var n := |cells| - 1;
    if i == n {
      assert cells[i := c][..n] == cells[..n];
    } else {
      LiveBytesUpdate(cells[..n], i, c);
      assert cells[i := c][..n] == cells[..n][i := c];
    }
  }

  lemma LiveBytesAppend<T>(cells: seq<Cell<T>>, c: Cell<T>)
    ensures LiveBytes(cells + [c]) == LiveBytes(cells) + Live(c)
  {
    assert (cells + [c])[..|cells|] == cells;
  }

  lemma {:induction false} LiveBytesBound<T>(cells: seq<Cell<T>>, i: nat)
    requires i < |cells|
    ensures Live(cells[i]) <= LiveBytes(cells)
    decreases |cells|
  {
    if i < |cells| - 1 {
      LiveBytesBound(cells[..|cells| - 1], i);
    }
  }

  /** No step loses or invents a byte, none exceeds the budget and none underflows. */
  lemma StepKeepsInv<T>(s: State<T>, e: Step<T>)
    requires Inv(s)
    ensures Inv(Next(s, e))
    ensures Enabled(s, e) && e.Drop? ==> s.cells[e.cell].charge <= s.used
  {
    hide LiveBytes, QueueInv;
    if Enabled(s, e) {
      match e
      case Reserve(bytes) =>
        LiveBytesAppend(s.cells, Cell(Reserving, None, bytes));
        QueueGrows(s.cells, s.queue, Cell(Reserving, None, bytes));
      case Wrap(i, item, to) => Replaced(s, i, Cell(to, Some(item), s.cells[i].charge));
      case Offer(i) =>
        LiveBytesUpdate(s.cells, i, s.cells[i].(place := Queued));
        Enqueued(s.cells, s.queue, i, s.cells[i].(place := Queued));
      case Receive => LeavesQueue(s, Held);
      case Disconnect =>
      case TakeItem(i) => Replaced(s, i, s.cells[i].(item := None));
      case MoveCharge(i) =>
        var emptied, moved := s.cells[i].(charge := 0), Cell(Reserving, None, s.cells[i].charge);
        LiveBytesUpdate(s.cells, i, emptied);
        LiveBytesAppend(s.cells[i := emptied], moved);
        QueueUntouched(s.cells, s.queue, i, emptied);
        QueueGrows(s.cells[i := emptied], s.queue, moved);
      case Drop(i) => DropKeepsInv(s, i);
    }
  }

  lemma StepKeepsLimits<T>(s: State<T>, e: Step<T>)
    ensures Next(s, e).max == s.max && Next(s, e).slots == s.slots
  {
  }

  /** Rewriting a cell outside the queue, with its charge kept. */
  lemma Replaced<T>(s: State<T>, i: nat, c: Cell<T>)
    requires Inv(s) && i < |s.cells| && !s.cells[i].place.Queued? && !c.place.Queued?
    requires Live(c) == Live(s.cells[i])
    ensures Inv(s.(cells := s.cells[i := c]))
  {
    hide LiveBytes, QueueInv;
    LiveBytesUpdate(s.cells, i, c);
    QueueUntouched(s.cells, s.queue, i, c);
  }

  lemma LeavesQueue<T>(s: State<T>, to: Place)
    requires Inv(s) && s.queue != [] && to.Held?
    ensures var i := s.queue[0];
            && i < |s.cells| && s.cells[i].place.Queued?
            && Inv(s.(cells := s.cells[i := s.cells[i].(place := to)], queue := s.queue[1..]))
  {
    var i := s.queue[0];
    assert s.cells[i].place.Queued?;
    hide LiveBytes, QueueInv;
    Dequeued(s.cells, s.queue, s.cells[i].(place := to));
    LiveBytesUpdate(s.cells, i, s.cells[i].(place := to));
  }

  lemma DropKeepsInv<T>(s: State<T>, i: nat)
    requires Inv(s) && Enabled(s, Drop(i))
    ensures Inv(Next(s, Drop(i))) && s.cells[i].charge <= s.used
  {
    var dead := s.cells[i].(place := Dropped, item := None);
    assert s.queue != [] ==> s.cells[s.queue[0]].place.Queued?;
    hide LiveBytes, QueueInv;
    LiveBytesBound(s.cells, i);
    LiveBytesUpdate(s.cells, i, dead);
    if s.queue != [] && s.queue[0] == i {
      Dequeued(s.cells, s.queue, dead);
    } else {
      QueueUntouched(s.cells, s.queue, i, dead);
    }
  }

  // ---------------------------------------------------------------- whole runs

  /** A channel as constructed: both capacities are nonzero. */
  function Fresh<T>(slots: nat, max: Size): State<T> {
    State(0, max, slots, true, [], [])
  }

  function Run<T>(start: State<T>, steps: seq<Step<T>>): State<T>
    decreases |steps|
  {
    if steps == [] then start else Next(Run(start, steps[..|steps| - 1]), steps[|steps| - 1])
  }

  /**
   * In every interleaving the counter equals the bytes of all live charges and never
   * exceeds the budget.
   */
  lemma {:induction false} BytesAreConserved<T>(slots: nat, max: Size, steps: seq<Step<T>>)
    ensures var s := Run(Fresh<T>(slots, max), steps);
            Inv(s) && s.max == max && s.slots == slots
    decreases |steps|
  {
    if steps != [] {
      hide Inv, Next;
      var n := |steps| - 1;
      BytesAreConserved(slots, max, steps[..n]);
      StepKeepsInv(Run(Fresh<T>(slots, max), steps[..n]), steps[n]);
      StepKeepsLimits(Run(Fresh<T>(slots, max), steps[..n]), steps[n]);
    }
  }

  /**
   * Admission is exact in every interleaving: a reservation adds its cell if and only if it
   * fits beside the live charges, so a drained channel has its whole budget back.
   */
  lemma AdmissionIsExact<T>(slots: nat, max: Size, steps: seq<Step<T>>, bytes: Size)
    ensures var s := Run(Fresh<T>(slots, max), steps);
            && (Admits(s, bytes) <==> LiveBytes(s.cells) + bytes <= max)
            && (Next(s, Reserve(bytes)) ==
                if LiveBytes(s.cells) + bytes <= max
                then s.(used := LiveBytes(s.cells) + bytes, cells := s.cells + [Cell(Reserving, None, bytes)])
                else s)
            && ((forall i :: 0 <= i < |s.cells| ==> Live(s.cells[i]) == 0) ==> s.used == 0)
  {
    var s := Run(Fresh<T>(slots, max), steps);
    BytesAreConserved(slots, max, steps);
    if forall i :: 0 <= i < |s.cells| ==> Live(s.cells[i]) == 0 {
      NothingLive(s.cells);
    }
  }

  lemma {:induction false} NothingLive<T>(cells: seq<Cell<T>>)
    requires forall i :: 0 <= i < |cells| ==> Live(cells[i]) == 0
    ensures LiveBytes(cells) == 0
    decreases |cells|
  {
    if cells != [] {
      NothingLive(cells[..|cells| - 1]);
    }
  }

  /** No release of any run subtracts more than the counter holds. */
  lemma ReleaseNeverUnderflows<T>(slots: nat, max: Size, steps: seq<Step<T>>, i: nat)
    requires Enabled(Run(Fresh<T>(slots, max), steps), Drop(i))
    ensures var s := Run(Fresh<T>(slots, max), steps);
            && s.cells[i].charge <= s.used
            && Next(s, Drop(i)).used == s.used - s.cells[i].charge
  {
    BytesAreConserved(slots, max, steps);
    StepKeepsInv(Run(Fresh<T>(slots, max), steps), Drop(i));
  }

  // ---------------------------------------------------------------- delivery order

  /** The cells a step puts into the queue. */
  function Entering<T>(s: State<T>, e: Step<T>): seq<nat> {
    if Enabled(s, e) && e.Offer? && s.connected && |s.queue| < s.slots then [e.cell] else []
  }

  /** The cells a step takes out of the queue: received, or discarded after disconnection. */
  function Leaving<T>(s: State<T>, e: Step<T>): seq<nat> {
    if Enabled(s, e) && s.queue != [] && (e.Receive? || (e.Drop? && s.queue[0] == e.cell)) then [s.queue[0]] else []
  }

  function Sent<T>(start: State<T>, steps: seq<Step<T>>): seq<nat>
    decreases |steps|
  {
    if steps == [] then []
    else Sent(start, steps[..|steps| - 1]) + Entering(Run(start, steps[..|steps| - 1]), steps[|steps| - 1])
  }

  function Taken<T>(start: State<T>, steps: seq<Step<T>>): seq<nat>
    decreases |steps|
  {
    if steps == [] then []
    else Taken(start, steps[..|steps| - 1]) + Leaving(Run(start, steps[..|steps| - 1]), steps[|steps| - 1])
  }

  lemma QueueHead<T>(s: State<T>)
    requires Inv(s) && s.queue != []
    ensures s.queue[0] < |s.cells| && s.cells[s.queue[0]].place.Queued?
    ensures s.queue == [s.queue[0]] + s.queue[1..]
  {
  }

  /** A step that takes a cell out of the queue takes the first one. */
  lemma LeavingStep<T>(s: State<T>, e: Step<T>)
    requires s.queue != [] ==> s.queue[0] < |s.cells|
    requires Leaving(s, e) != []
    ensures Entering(s, e) == [] && Leaving(s, e) == [s.queue[0]] && Next(s, e).queue == s.queue[1..]
  {
    match e
    case Receive =>
    case Drop(i) =>
  }

  /** Every other step keeps the queue, or appends to it. */
  lemma StayingStep<T>(s: State<T>, e: Step<T>)
    requires Leaving(s, e) == []
    ensures Next(s, e).queue == s.queue + Entering(s, e)
  {
    if Entering(s, e) == [] {
      assert s.queue + [] == s.queue;
      match e
      case Offer(i) =>
      case Receive =>
      case Drop(i) =>
      case _ =>
    }
  }

  lemma QueueStep<T>(s: State<T>, e: Step<T>)
    requires Inv(s)
    ensures s.queue + Entering(s, e) == Leaving(s, e) + Next(s, e).queue
  {
    if s.queue != [] {
      QueueHead(s);
    }
    hide Inv, Next, Entering, Leaving;
    if Leaving(s, e) != [] {
      LeavingStep(s, e);
      assert s.queue + [] == s.queue;
    } else {
      StayingStep(s, e);
      assert [] + Next(s, e).queue == Next(s, e).queue;
    }
  }

  lemma Regroup(taken: seq<nat>, queue: seq<nat>, entering: seq<nat>, leaving: seq<nat>, queue': seq<nat>)
    requires queue + entering == leaving + queue'
    ensures (taken + queue) + entering == (taken + leaving) + queue'
  {
    assert (taken + queue) + entering == taken + (queue + entering);
    assert (taken + leaving) + queue' == taken + (leaving + queue');
  }

  /** First in, first out: what was sent is what was taken followed by what is queued. */
  lemma {:induction false} DeliveryIsFifo<T>(slots: nat, max: Size, steps: seq<Step<T>>)
    ensures Sent(Fresh<T>(slots, max), steps)
         == Taken(Fresh<T>(slots, max), steps) + Run(Fresh<T>(slots, max), steps).queue
    decreases |steps|
  {
    if steps != [] {
      hide Inv, Next, Entering, Leaving;
      var n := |steps| - 1;
      var start := Fresh<T>(slots, max);
      DeliveryIsFifo(slots, max, steps[..n]);
      BytesAreConserved(slots, max, steps[..n]);
      var s, s' := Run(start, steps[..n]), Run(start, steps);
      QueueStep(s, steps[n]);
      Regroup(Taken(start, steps[..n]), s.queue, Entering(s, steps[n]), Leaving(s, steps[n]), s'.queue);
    }
  }

  // ---------------------------------------------------------------- delivered items

  function ItemAt<T>(cells: seq<Cell<T>>, i: nat): Option<T> {
    if i < |cells| then cells[i].item else None
  }

  function Items<T>(cells: seq<Cell<T>>, ids: seq<nat>): seq<Option<T>> {
    seq(|ids|, k requires 0 <= k < |ids| => ItemAt(cells, ids[k]))
  }

  /** The items offered and accepted, as their senders held them. */
  function SentItems<T>(start: State<T>, steps: seq<Step<T>>): seq<Option<T>>
    decreases |steps|
  {
    if steps == [] then []
    else
      var s, e := Run(start, steps[..|steps| - 1]), steps[|steps| - 1];
      SentItems(start, steps[..|steps| - 1]) + Items(s.cells, Entering(s, e))
  }

  /** The items received, as their receivers then hold them. */
  function ReceivedItems<T>(start: State<T>, steps: seq<Step<T>>): seq<Option<T>>
    decreases |steps|
  {
    if steps == [] then []
    else
      var s, e := Run(start, steps[..|steps| - 1]), steps[|steps| - 1];
      ReceivedItems(start, steps[..|steps| - 1]) + if e.Receive? then Items(Next(s, e).cells, Leaving(s, e)) else []
  }

  /** A step changes no item that is still queued after it. */
  lemma QueuedItemStays<T>(s: State<T>, e: Step<T>, i: nat)
    requires i < |s.cells|
    ensures i < |Next(s, e).cells|
    ensures Next(s, e).cells[i].place.Queued? ==> Next(s, e).cells[i].item == s.cells[i].item
  {
  }

  lemma ItemsAppend<T>(cells: seq<Cell<T>>, a: seq<nat>, b: seq<nat>)
    ensures Items(cells, a + b) == Items(cells, a) + Items(cells, b)
  {
  }

  lemma EnteringExists<T>(s: State<T>, e: Step<T>)
    ensures forall k :: 0 <= k < |Entering(s, e)| ==> Entering(s, e)[k] < |s.cells|
  {
  }

  /** The items in the queue, from one step to the next. */
  lemma ItemsStep<T>(s: State<T>, e: Step<T>)
    requires Inv(s) && Inv(Next(s, e))
    ensures var s' := Next(s, e);
            Items(s.cells, s.queue) + Items(s.cells, Entering(s, e)) ==
            Items(s.cells, Leaving(s, e)) + Items(s'.cells, s'.queue)
  {
    hide Next, Entering, Leaving, LiveBytes;
    var s' := Next(s, e);
    QueueStep(s, e);
    EnteringExists(s, e);
    var ids := s.queue + Entering(s, e);
    ItemsAppend(s.cells, s.queue, Entering(s, e));
    ItemsAppend(s.cells, Leaving(s, e), s'.queue);
    forall k | 0 <= k < |s'.queue| ensures ItemAt(s'.cells, s'.queue[k]) == ItemAt(s.cells, s'.queue[k]) {
      assert s'.queue[k] == ids[|Leaving(s, e)| + k];
      QueuedItemStays(s, e, s'.queue[k]);
    }
    assert Items(s'.cells, s'.queue) == Items(s.cells, s'.queue);
  }

  /** A received item is the one that was queued, and now its receiver holds it. */
  lemma ReceivedItem<T>(s: State<T>, e: Step<T>)
    requires Inv(s) && e.Receive?
    ensures Items(Next(s, e).cells, Leaving(s, e)) == Items(s.cells, Leaving(s, e))
    ensures Leaving(s, e) != [] ==> s.connected && Next(s, e).cells[s.queue[0]].place.Held?
  {
    if s.queue != [] {
      QueueHead(s);
    }
  }

  /** Only a receive takes from the queue while the receiver is there. */
  lemma DiscardedLate<T>(s: State<T>, e: Step<T>)
    requires Inv(s) && !e.Receive? && Leaving(s, e) != []
    ensures !s.connected
  {
    QueueHead(s);
  }

  lemma NeverReconnects<T>(s: State<T>, e: Step<T>)
    ensures Next(s, e).connected ==> s.connected
  {
  }

  /** Received so far, and, while the receiver is there, nothing else has left the queue. */
  ghost predicate Delivered<T>(sent: seq<T>, received: seq<T>, queued: seq<T>, connected: bool) {
    && received <= sent
    && |queued| <= |sent| && sent[|sent| - |queued|..] == queued
    && |received| + |queued| <= |sent|
    && (connected ==> sent == received + queued)
  }

  lemma DeliveredStep<T>(
    sent: seq<T>, received: seq<T>, queued: seq<T>, connected: bool,
    entering: seq<T>, leaving: seq<T>, got: seq<T>, queued': seq<T>, connected': bool)
    requires Delivered(sent, received, queued, connected)
    requires queued + entering == leaving + queued'
    requires connected' ==> connected
    requires if got == [] then leaving != [] ==> !connected else got == leaving && connected
    ensures Delivered(sent + entering, received + got, queued', connected')
  {
    var sent', n := sent + entering, |sent| - |queued|;
    assert sent == sent[..n] + queued;
    assert sent' == sent[..n] + (queued + entering) == sent[..n] + (leaving + queued');
    assert sent'[|sent'| - |queued'|..] == queued';
    if got != [] {
      assert sent[..n] == received;
      assert sent' == (received + got) + queued';
      assert received + got <= sent';
    } else {
      assert received + got == received;
      if connected' {
        assert leaving + queued' == queued';
        assert sent[..n] == received;
      }
    }
  }

  /**
   * The items received are the items sent, in order and unchanged; while the receiver is
   * there, all the others are still queued.
   */
  lemma {:induction false} ItemsAreFifo<T>(slots: nat, max: Size, steps: seq<Step<T>>)
    ensures var start := Fresh<T>(slots, max);
            var s := Run(start, steps);
            Delivered(SentItems(start, steps), ReceivedItems(start, steps), Items(s.cells, s.queue), s.connected)
    decreases |steps|
  {
    hide Inv, Next, Entering, Leaving, Items, Delivered;
    var start := Fresh<T>(slots, max);
    if steps == [] {
      NothingSent(start);
    } else {
      var n := |steps| - 1;
      var e := steps[n];
      ItemsAreFifo(slots, max, steps[..n]);
      BytesAreConserved(slots, max, steps[..n]);
      BytesAreConserved(slots, max, steps);
      var s, s' := Run(start, steps[..n]), Run(start, steps);
      assert s' == Next(s, e);
      ItemsStep(s, e);
      DeliveryStep(s, e);
      DeliveredStep(
        SentItems(start, steps[..n]), ReceivedItems(start, steps[..n]), Items(s.cells, s.queue), s.connected,
        Items(s.cells, Entering(s, e)), Items(s.cells, Leaving(s, e)),
        if e.Receive? then Items(s'.cells, Leaving(s, e)) else [], Items(s'.cells, s'.queue), s'.connected);
    }
  }

  lemma NothingSent<T>(s: State<T>)
    requires s.queue == []
    ensures Delivered([], [], Items(s.cells, s.queue), s.connected)
  {
  }

  /** What one step receives, and when it may discard. */
  lemma DeliveryStep<T>(s: State<T>, e: Step<T>)
    requires Inv(s)
    ensures Next(s, e).connected ==> s.connected
    ensures var leaving := Items(s.cells, Leaving(s, e));
            var got := if e.Receive? then Items(Next(s, e).cells, Leaving(s, e)) else [];
            if got == [] then leaving != [] ==> !s.connected else got == leaving && s.connected
  {
    hide Inv, Next, Leaving;
    NeverReconnects(s, e);
    if e.Receive? {
      ReceivedItem(s, e);
    } else if Leaving(s, e) != [] {
      DiscardedLate(s, e);
    }
  }
}
