/** Frame dispatch over all peer slots of the host, under one shared work budget. */
module HostFrames {
  import opened Status
  import opened DirtyGeometry
  import opened DirtyScheduler
  import opened DirtyRuns

  datatype PeerState = Accepted | Negotiating | Active | Closing | PeerClosed | PeerFailed

  /** Value of one peer slot. */
  datatype SlotView = SlotView(occupied: bool, state: PeerState, sched: Sched)

  /** Wire answers: `answers(peer)(call)` is the status of that peer's call-th presentation. */
  type Wire = nat -> nat -> Status

  function StateAfter(state: PeerState, last: Status): PeerState {
    if last.Ok? || Backpressure(last) then state
    else if last.Closed? then PeerClosed
    else PeerFailed
  }

  /** A slot gets a turn when it is active, capture is running and some budget is left. */
  predicate HasTurn(v: SlotView, ready: bool, budget: nat) {
    0 < budget && ready && v.occupied && v.state == Active
  }

  /** One slot's turn: one frame that uses up `budget - left` presentations, or nothing. */
  ghost predicate TookTurn(before: SlotView, after: SlotView, ready: bool, now: nat,
                           budget: nat, left: nat, answers: nat -> Status)
  {
    if !HasTurn(before, ready, budget) then after == before && left == budget
    else
      var r := FrameState(before.sched, now, budget, answers);
      && after == SlotView(true, StateAfter(before.state, r.last), r.sched)
      && left == budget - r.presented
  }

  class PeerSlot {
    var occupied: bool
    var state: PeerState
    const dirty: Scheduler

    constructor (dirty: Scheduler)
      ensures !occupied && state == Accepted && this.dirty == dirty
    {
      occupied, state := false, Accepted;
      this.dirty := dirty;
    }

    ghost function View(): SlotView
      reads this, dirty, dirty.regions
      requires dirty.Valid()
    {
      SlotView(occupied, state, dirty.State())
    }
  }

  /** Slots own distinct, valid schedulers; `repr` holds every object they are made of. */
  ghost predicate ValidSlots(slots: seq<PeerSlot>, repr: set<object>)
    reads repr
  {
    && (forall i | 0 <= i < |slots| ::
          && slots[i] in repr && slots[i].dirty in repr && slots[i].dirty.regions in repr
          && slots[i].dirty.Valid())
    && (forall i, j | 0 <= i < j < |slots| ::
          && slots[i] != slots[j]
          && slots[i].dirty != slots[j].dirty
          && slots[i].dirty.regions != slots[j].dirty.regions)
  }

  /** The inner loop for one slot whose turn it is; returns the number of presentations. */
  method DispatchSlot(slot: PeerSlot, now: u64, budget: nat, answers: nat -> Status) returns (presented: nat)
    requires slot.dirty.Valid()
    requires slot.occupied && slot.state == Active && 0 < budget
    modifies slot, slot.dirty, slot.dirty.regions
    ensures slot.dirty.Valid()
    ensures presented <= budget
    ensures TookTurn(old(slot.View()), slot.View(), true, now, budget, budget - presented, answers)
  {
    ghost var before := slot.dirty.State();
    var status, due, _ := slot.dirty.Peek(now);
    presented := 0;
    if status != Ok || due == 0 {
      return;
    }
    presented, status := PresentFrame(due, budget, answers);
    if presented > 0 {
      var _ := slot.dirty.Commit(presented, now);
    }
    if status.State? || status.Again? {
      var _ := slot.dirty.Defer(now);
    } else if status.Closed? {
      slot.state := PeerClosed;
    } else if status != Ok {
      slot.state := PeerFailed;
    }
  }

  /** Present region after region until the budget is used up or the wire refuses one. */
  method PresentFrame(due: nat, budget: nat, answers: nat -> Status) returns (presented: nat, status: Status)
    ensures presented == LeadingOk(answers, Min(due, budget))
    ensures status == if presented < Min(due, budget) then answers(presented) else Ok
  {
    presented, status := 0, Ok;
    while presented < due && presented < budget
      invariant presented <= due && presented <= budget
      invariant forall k: nat | k < presented :: answers(k).Ok?
      invariant status == Ok
    {
      status := answers(presented);
      if status != Ok {
        break;
      }
      presented := presented + 1;
    }
    LeadingOkUnique(answers, Min(due, budget), presented);
  }

  lemma {:induction false} LeadingOkUnique(answers: nat -> Status, limit: nat, n: nat)
    requires n <= limit
    requires forall k: nat | k < n :: answers(k).Ok?
    requires n < limit ==> !answers(n).Ok?
    ensures LeadingOk(answers, limit) == n
  {
    if limit > 0 {
      LeadingOkUnique(answers, limit - 1, Min(n, limit - 1));
    }
  }

  /** The turn of slot `index` leaves every other slot as it was. */
  method DispatchAt(slots: seq<PeerSlot>, ghost repr: set<object>, index: nat, ready: bool,
                    now: u64, budget: nat, answers: nat -> Status)
    returns (left: nat)
    requires ValidSlots(slots, repr) && index < |slots| && 0 < budget
    modifies slots[index], slots[index].dirty, slots[index].dirty.regions
    ensures ValidSlots(slots, repr)
    ensures left <= budget
    ensures TookTurn(old(slots[index].View()), slots[index].View(), ready, now, budget, left, answers)
    ensures forall i | 0 <= i < |slots| && i != index :: slots[i].View() == old(slots[i].View())
  {
    left := budget;
    if slots[index].occupied && slots[index].state == Active && ready {
      var presented := DispatchSlot(slots[index], now, budget, answers);
      left := budget - presented;
    }
  }

  /**
    Every slot takes its turn, in slot order, with what the earlier slots left of the
    iteration's budget: `budgets[i]` is what slot `i` found. `left` is what remains at the end.
   */
  method DispatchFrames(slots: seq<PeerSlot>, ghost repr: set<object>, ready: bool,
                        now: u64, budget: nat, wire: Wire)
    returns (left: nat, ghost budgets: seq<nat>)
    requires ValidSlots(slots, repr)
    modifies repr
    ensures ValidSlots(slots, repr)
    ensures |budgets| == |slots| + 1 && budgets[0] == budget && budgets[|slots|] == left <= budget
    ensures forall i | 0 <= i < |slots| ::
      TookTurn(old(slots[i].View()), slots[i].View(), ready, now, budgets[i], budgets[i + 1], wire(i))
  {
    left := budget;
    budgets := [budget];
    var index := 0;
    while index < |slots| && 0 < left
      invariant 0 <= index <= |slots|
      invariant ValidSlots(slots, repr)
      invariant |budgets| == index + 1 && budgets[0] == budget && budgets[index] == left <= budget
      invariant forall i | 0 <= i < index ::
        TookTurn(old(slots[i].View()), slots[i].View(), ready, now, budgets[i], budgets[i + 1], wire(i))
      invariant forall i | index <= i < |slots| :: slots[i].View() == old(slots[i].View())
    {
      left := DispatchAt(slots, repr, index, ready, now, left, wire(index));
      budgets := budgets + [left];
      index := index + 1;
    }
    budgets := budgets + seq(|slots| - index, i => 0);
  }

  // --- What becomes of a peer ---

  /** One interval on, or the largest 64-bit time where the clock would wrap. */
  function Retry(now: nat, interval: nat): nat { if now + interval > U64_MAX then U64_MAX else now + interval }

  /**
    A peer that had its turn stays active if the wire took what it was given or asked to wait,
    is closed if the wire was, and failed otherwise; a closed or failed peer has no turn again.
   */
  lemma TurnEnds(before: SlotView, after: SlotView, now: nat, budget: nat, left: nat, answers: nat -> Status)
    requires TookTurn(before, after, true, now, budget, left, answers)
    requires before.occupied && before.state == Active && 0 < budget && 0 < before.sched.maxPerFrame
    ensures var shown := budget - left;
      var due := if before.sched.nextFrame > now then 0
                 else Min(Min(|before.sched.regions|, before.sched.maxPerFrame), budget);
      && shown <= due && (forall k: nat | k < shown :: answers(k) == Ok) && (shown < due ==> answers(shown) != Ok)
      && after.sched.regions == before.sched.regions[shown..]
      && after.occupied
      && after.state == (if shown == due || answers(shown) == Again || answers(shown) == State then Active
                         else if answers(shown) == Closed then PeerClosed else PeerFailed)
      && (after.state != Active ==>
            forall later, rest: nat | TookTurn(after, later, true, now, rest, rest, answers) :: later == after)
      && (shown < due && answers(shown) in {Again, State} ==>
            after.sched.nextFrame >= Retry(now, before.sched.interval))
  {
    FrameQueue(before.sched, now, budget, answers);
  }

  /** Without capture, without budget or without an active peer nothing happens. */
  lemma NoTurn(before: SlotView, after: SlotView, ready: bool, now: nat, budget: nat, left: nat, answers: nat -> Status)
    requires TookTurn(before, after, ready, now, budget, left, answers)
    requires !ready || budget == 0 || !before.occupied || before.state != Active
    ensures after == before && left == budget
  {
  }
}
