/**
 * The execution coordinator (vnpy_acrl_execution/coordinator.py) as a state machine: each public, locked method
 * is one function from state to state. CoordinatorObject.dfy gives the imperative form and proves it equal.
 *
 * A run is driven by a gateway: gw(n) is the child order id returned by the n-th send_order call, "" when the
 * gateway refuses the order. Prices are integer ticks.
 */
module Coordinator {
  import opened Models

  type OrderId = string
  type Gateway = nat -> OrderId

  datatype OrderStatus = Submitting | NotTraded | PartTraded | AllTraded | OrderCancelled | Rejected

  predicate IsFinal(s: OrderStatus) {
    s == AllTraded || s == OrderCancelled || s == Rejected
  }

  /** ChildOrderRecord. */
  datatype Child = Child(id: OrderId, parent: ParentId, key: Key, price: int, volume: nat, level: int,
                         aggressive: bool, traded: nat, status: OrderStatus, cancelRequested: bool) {
    function Leaves(): nat {
      if IsFinal(status) || traded >= volume then 0 else volume - traded
    }

    predicate Waits() {
      cancelRequested && Leaves() > 0
    }
  }

  /** ReconciliationTarget: an allocation and the best bid it is anchored at. */
  datatype Target = Target(allocation: Allocation, bid: int)

  /** One send_order call. */
  datatype Request = Request(key: Key, quantity: nat, price: int, level: nat, aggressive: bool)

  /** The coordinator: its three dictionaries and the send_order calls made so far. Orders are in insertion order. */
  datatype State = State(parents: map<ParentId, Parent>, orders: seq<Child>, targets: map<Key, Target>, sent: seq<Request>)

  datatype Failure = HardLimit | TargetExceeded | UnknownTranche | NotPaused | ChildrenLive
  datatype Outcome = Done(state: State) | Raised(state: State, error: Failure)

  predicate Known(s: State, k: Key) {
    k.parent in s.parents && k.index < |s.parents[k.parent].tranches|
  }

  function TrancheOf(s: State, k: Key): Tranche
    requires Known(s, k)
  {
    s.parents[k.parent].tranches[k.index]
  }

  function SetTranche(s: State, k: Key, t: Tranche): State
    requires Known(s, k)
  {
    var p := s.parents[k.parent];
    s.(parents := s.parents[k.parent := p.(tranches := p.tranches[k.index := t])])
  }

  /** No parent and no tranche appears or disappears. */
  predicate SameTranches(s: State, s': State) {
    && s'.parents.Keys == s.parents.Keys
    && forall p :: p in s.parents ==> |s'.parents[p].tranches| == |s.parents[p].tranches|
  }

  // ---------- sums over child orders ----------

  /** The quantities the coordinator adds up over its child orders. */
  datatype Measure =
    | LiveOf(k: Key)
    | LiveAt(k: Key, bucket: nat, bid: int)
    | FilledOf(k: Key)
    | ParentLive(p: ParentId)
    | ParentFilled(p: ParentId)

  /** Distance in ticks from the best bid, as _reconcile classifies an order: 0 market, 1 to 5 limit, 6 anything else. */
  function BucketOf(o: Child, bid: int): nat {
    if o.aggressive then (if o.price == bid then 0 else INACTIVE)
    else if 1 <= o.price - bid <= 5 then o.price - bid else INACTIVE
  }

  function Weight(m: Measure, o: Child): nat {
    match m
    case LiveOf(k) => if o.key == k then o.Leaves() else 0
    case LiveAt(k, b, bid) => if o.key == k && BucketOf(o, bid) == b then o.Leaves() else 0
    case FilledOf(k) => if o.key == k then o.traded else 0
    case ParentLive(p) => if o.parent == p then o.Leaves() else 0
    case ParentFilled(p) => if o.parent == p then o.traded else 0
  }

  function Sum(m: Measure, os: seq<Child>): nat {
    if os == [] then 0 else Sum(m, os[..|os| - 1]) + Weight(m, os[|os| - 1])
  }

  // ---------- cancelling ----------

  /** _cancel_order. */
  function Mark(o: Child): Child {
    if o.Leaves() == 0 || o.cancelRequested then o else o.(cancelRequested := true)
  }

  function MarkTranche(os: seq<Child>, k: Key): seq<Child> {
    seq(|os|, i requires 0 <= i < |os| => if os[i].key == k then Mark(os[i]) else os[i])
  }

  function MarkTranches(os: seq<Child>, p: ParentId, n: nat): seq<Child> {
    seq(|os|, i requires 0 <= i < |os| => if os[i].key.parent == p && os[i].key.index < n then Mark(os[i]) else os[i])
  }

  function DropTargets(ts: map<Key, Target>, p: ParentId, n: nat): map<Key, Target> {
    map k | k in ts && !(k.parent == p && k.index < n) :: ts[k]
  }

  predicate Pending(os: seq<Child>, k: Key) {
    exists i :: 0 <= i < |os| && os[i].key == k && os[i].Waits()
  }

  // ---------- limits ----------

  /** assert_hard_limits does not raise. */
  predicate WithinLimits(s: State, p: ParentId)
    requires p in s.parents
  {
    var parent := s.parents[p];
    && parent.traded + Sum(ParentLive(p), s.orders) <= parent.total
    && forall i :: 0 <= i < |parent.tranches| ==>
      parent.tranches[i].traded + Sum(LiveOf(Key(p, i)), s.orders) <= parent.tranches[i].volume
  }

  /** _available. */
  function Available(s: State, k: Key): nat
    requires Known(s, k)
  {
    var p, t := s.parents[k.parent], TrancheOf(s, k);
    var free := Min(p.total - p.traded - Sum(ParentLive(k.parent), s.orders), t.volume - t.traded - Sum(LiveOf(k), s.orders));
    if free < 0 then 0 else free
  }

  // ---------- pause, cancel, resume ----------

  function PauseTranche(t: Tranche): Tranche {
    if t.status == Active then t.(status := Closing) else t
  }

  function CancelTranche(t: Tranche): Tranche {
    if t.status == Completed || t.status == Error then t else t.(status := Cancelled)
  }

  function ResumeTranche(t: Tranche): Tranche {
    if t.status == Closing && t.Remaining() > 0 then t.(status := Waiting) else t
  }

  function PauseParent(s: State, p: ParentId): (r: State)
    requires p in s.parents
    ensures SameTranches(s, r)
  {
    var parent := s.parents[p];
    var n := |parent.tranches|;
    if parent.status != Running && parent.status != ParentWaiting then s
    else
      var tranches := seq(n, i requires 0 <= i < n => PauseTranche(parent.tranches[i]));
      s.(parents := s.parents[p := parent.(status := Paused, tranches := tranches)],
         orders := MarkTranches(s.orders, p, n),
         targets := DropTargets(s.targets, p, n))
  }

  function CancelParent(s: State, p: ParentId): State
    requires p in s.parents
  {
    var parent := s.parents[p];
    var n := |parent.tranches|;
    if parent.status == ParentCompleted || parent.status == ParentCancelled then s
    else
      var tranches := seq(n, i requires 0 <= i < n => CancelTranche(parent.tranches[i]));
      s.(parents := s.parents[p := parent.(status := ParentCancelled, tranches := tranches)],
         orders := MarkTranches(s.orders, p, n),
         targets := DropTargets(s.targets, p, n))
  }

  function ResumeParent(s: State, p: ParentId): Outcome
    requires p in s.parents
  {
    var parent := s.parents[p];
    var n := |parent.tranches|;
    if parent.status != Paused then Raised(s, NotPaused)
    else if Sum(ParentLive(p), s.orders) > 0 then Raised(s, ChildrenLive)
    else
      var tranches := seq(n, i requires 0 <= i < n => ResumeTranche(parent.tranches[i]));
      Done(s.(parents := s.parents[p := parent.(status := Running, tranches := tranches)]))
  }

  // ---------- sending ----------

  predicate HasId(os: seq<Child>, id: OrderId) {
    exists i :: 0 <= i < |os| && os[i].id == id
  }

  /** _send_order: an empty answer pauses the parent, a known one changes nothing, a new one is recorded. */
  function Send(gw: Gateway, s: State, r: Request): (s': State)
    requires r.key.parent in s.parents
    ensures SameTranches(s, s')
  {
    if r.quantity == 0 then s
    else
      var id, s1 := gw(|s.sent|), s.(sent := s.sent + [r]);
      if id == "" then PauseParent(s1, r.key.parent)
      else if HasId(s.orders, id) then s1
      else s1.(orders := s.orders + [Child(id, r.key.parent, r.key, r.price, r.quantity, r.level, r.aggressive, 0, Submitting, false)])
  }

  // ---------- reconciliation ----------

  function Desired(t: Target, b: nat): nat {
    if b < INACTIVE then t.allocation[b] else 0
  }

  /** Whether order i does not fit: its bucket, counted from the oldest order up to it, exceeds the target. */
  predicate Excess(os: seq<Child>, k: Key, t: Target, i: nat)
    requires i < |os|
  {
    && os[i].key == k && os[i].Leaves() > 0
    && Sum(LiveAt(k, BucketOf(os[i], t.bid), t.bid), os[..i + 1]) > Desired(t, BucketOf(os[i], t.bid))
  }

  /** The cancelling half of _reconcile. */
  function MarkExcess(os: seq<Child>, k: Key, t: Target): seq<Child> {
    seq(|os|, i requires 0 <= i < |os| => if Excess(os, k, t, i) then Mark(os[i]) else os[i])
  }

  /** What _reconcile asks for in bucket b: the missing lots, as far as they are available. */
  function Deficit(s: State, k: Key, t: Target, b: nat): Request
    requires Known(s, k) && b < INACTIVE
  {
    var q := Min(Desired(t, b) - Sum(LiveAt(k, b, t.bid), s.orders), Available(s, k));
    Request(k, if q > 0 then q else 0, t.bid + b, b, b == 0)
  }

  /** The sending half of _reconcile from bucket b on; the target read at its start is kept, even after a pause. */
  function SendDeficits(gw: Gateway, s: State, k: Key, t: Target, b: nat): (s': State)
    requires Known(s, k) && b <= INACTIVE
    ensures SameTranches(s, s')
    decreases INACTIVE - b
  {
    if b == INACTIVE then s else SendDeficits(gw, Send(gw, s, Deficit(s, k, t, b)), k, t, b + 1)
  }

  function CheckLimits(s: State, p: ParentId): Outcome
    requires p in s.parents
  {
    if WithinLimits(s, p) then Done(s) else Raised(s, HardLimit)
  }

  function Reconcile(gw: Gateway, s: State, k: Key): Outcome
    requires Known(s, k)
  {
    if k !in s.targets || s.parents[k.parent].status != Running then Done(s)
    else
      var t := s.targets[k];
      var s1 := s.(orders := MarkExcess(s.orders, k, t));
      CheckLimits(if Pending(s1.orders, k) then s1 else SendDeficits(gw, s1, k, t, 0), k.parent)
  }

  function ApplyIntent(gw: Gateway, s: State, k: Key, intent: seq<real>, bid: int): Outcome
    requires Known(s, k) && Fractions(intent)
  {
    var target := Target(TargetQuantities(intent, TrancheOf(s, k).Remaining()), bid);
    Reconcile(gw, s.(targets := s.targets[k := target]), k)
  }

  function ReconcilePending(gw: Gateway, s: State, k: Key, bid: int): Outcome
    requires Known(s, k)
  {
    if k !in s.targets || TrancheOf(s, k).status != Active then Done(s)
    else Reconcile(gw, s.(targets := s.targets[k := s.targets[k].(bid := bid)]), k)
  }

  // ---------- closing ----------

  /** _finish_closing_tranche. */
  function FinishClosing(gw: Gateway, s: State, k: Key, bid: int): State
    requires Known(s, k)
  {
    var t := TrancheOf(s, k);
    if t.Remaining() == 0 then SetTranche(s, k, t.(status := Completed))
    else if Sum(LiveOf(k), s.orders) > 0 then s.(orders := MarkOffBid(s.orders, k, bid))
    else
      var q := Min(t.Remaining(), Available(s, k));
      Send(gw, s, Request(k, q, bid, 0, true))
  }

  /** Everything live that is not an aggressive order at the best bid is cancelled. */
  function MarkOffBid(os: seq<Child>, k: Key, bid: int): seq<Child> {
    seq(|os|, i requires 0 <= i < |os| =>
      if os[i].key == k && !(os[i].aggressive && os[i].price == bid) then Mark(os[i]) else os[i])
  }

  function BeginClose(gw: Gateway, s: State, k: Key, bid: int): State
    requires Known(s, k)
  {
    var t := TrancheOf(s, k);
    if t.status == Completed || t.status == Cancelled || t.status == Error then s
    else if t.status == Closing then FinishClosing(gw, s, k, bid)
    else
      var s1 := SetTranche(s, k, t.(status := Closing));
      FinishClosing(gw, s1.(targets := s.targets - {k}, orders := MarkTranche(s.orders, k)), k, bid)
  }

  function ContinueClose(gw: Gateway, s: State, k: Key, bid: int): State
    requires Known(s, k)
  {
    if TrancheOf(s, k).status == Closing then FinishClosing(gw, s, k, bid) else s
  }

  // ---------- order reports ----------

  /** The reference of a report: not of this application, ill-formed, or ACRL:parent:tranche:Llevel. */
  datatype Reference = Foreign | Malformed | Algorithm(parent: ParentId, key: Key, level: int)

  datatype Report = Report(id: OrderId, status: OrderStatus, traded: nat, price: int, volume: nat, reference: Reference)

  function IndexOf(os: seq<Child>, id: OrderId): (i: nat)
    ensures i <= |os| && (i < |os| ==> os[i].id == id)
    ensures forall j :: 0 <= j < i ==> os[j].id != id
  {
    if os == [] then 0
    else if os[0].id == id then 0
    else 1 + IndexOf(os[1..], id)
  }

  function Max(a: nat, b: nat): nat {
    if a < b then b else a
  }

  /** A final status is never replaced by a different one. */
  predicate Accepted(o: Child, r: Report) {
    !IsFinal(o.status) || r.status == o.status
  }

  /** The report merged into its record: cumulative quantity never falls. */
  function Absorb(o: Child, r: Report): Child {
    o.(traded := Max(o.traded, r.traded), status := if Accepted(o, r) then r.status else o.status)
  }

  /** The bucket a fill is taken from first. */
  function Preferred(o: Child, bid: int): nat {
    if o.aggressive then 0 else BucketOf(o, bid)
  }

  function Deduct(a: Allocation, b: nat, quantity: nat): Allocation
    requires b < BUCKETS
  {
    a[b := a[b] - Min(a[b], quantity)]
  }

  /** Consume a fill bucket after bucket, in the order given. */
  function Consume(a: Allocation, order: seq<nat>, quantity: nat): (Allocation, nat)
    requires forall i :: 0 <= i < |order| ==> order[i] < BUCKETS
    decreases |order|
  {
    if order == [] then (a, quantity)
    else Consume(Deduct(a, order[0], quantity), order[1..], quantity - Min(a[order[0]], quantity))
  }

  /** Preferred bucket, then inactive lots, then the rest in order; the duplicate of the preferred one finds it empty. */
  function Priority(b: nat): (order: seq<nat>)
    requires b < BUCKETS
    ensures order != [] && forall i :: 0 <= i < |order| ==> order[i] < BUCKETS
  {
    [b, 6, 0, 1, 2, 3, 4, 5]
  }

  /** _consume_target_fill. */
  function ConsumeFill(s: State, o: Child, quantity: nat): Outcome {
    if o.key !in s.targets || quantity == 0 then Done(s)
    else
      var t := s.targets[o.key];
      var (a, rest) := Consume(t.allocation, Priority(Preferred(o, t.bid)), quantity);
      if rest > 0 then Raised(s, TargetExceeded)
      else Done(s.(targets := s.targets[o.key := t.(allocation := a)]))
  }

  /** The fill of a report booked on its tranche, its parent and the current target. */
  function Book(s: State, o: Child, delta: nat): Outcome
    requires Known(s, o.key)
  {
    if delta == 0 then Done(s)
    else
      var p, t := s.parents[o.key.parent], TrancheOf(s, o.key);
      var t' := t.(traded := Min(t.traded + delta, t.volume));
      var p' := p.(traded := Min(p.traded + delta, p.total), tranches := p.tranches[o.key.index := t']);
      ConsumeFill(s.(parents := s.parents[o.key.parent := p']), o, delta)
  }

  function Complete(s: State, k: Key): State
    requires Known(s, k)
  {
    var t := TrancheOf(s, k);
    var s1 :=
      if t.Remaining() > 0 then s
      else SetTranche(s, k, t.(status := Completed)).(targets := s.targets - {k}, orders := MarkTranche(s.orders, k));
    var p := s1.parents[k.parent];
    if p.Remaining() > 0 then s1
    else s1.(parents := s1.parents[k.parent := p.(status := ParentCompleted)])
  }

  /** _adopt_algorithm_order: an unknown order that carries a reference of this application is recorded. */
  function Adopt(s: State, r: Report): State {
    if r.reference.Algorithm? && r.reference.parent in s.parents then
      s.(orders := s.orders + [Child(r.id, r.reference.parent, r.reference.key, r.price, r.volume, r.reference.level,
                                     r.reference.level == 0, 0, r.status, false)])
    else s
  }

  function ProcessOrder(s: State, r: Report): Outcome {
    var s0 := if IndexOf(s.orders, r.id) < |s.orders| then s else Adopt(s, r);
    var i := IndexOf(s0.orders, r.id);
    if i == |s0.orders| then Done(s0)
    else
      var o := s0.orders[i];
      if o.parent !in s0.parents then Done(s0)
      else if o.key.parent != o.parent || !Known(s0, o.key) then Raised(s0, UnknownTranche)
      else Deliver(s0, i, r)
  }

  /** The report r merged into the order at position i, and its fill booked. */
  function Fill(s: State, i: nat, r: Report): Outcome
    requires i < |s.orders| && Known(s, s.orders[i].key)
  {
    var o, o' := s.orders[i], Absorb(s.orders[i], r);
    Book(s.(orders := s.orders[i := o']), o', o'.traded - o.traded)
  }

  /** A rejection, or a cancellation nobody asked for, pauses the parent. o is the order before the report. */
  predicate Alarms(o: Child, r: Report) {
    Accepted(o, r) && ((r.status == OrderCancelled && !o.cancelRequested) || r.status == Rejected)
  }

  function Deliver(s: State, i: nat, r: Report): Outcome
    requires i < |s.orders| && Known(s, s.orders[i].key)
  {
    var o, filled := s.orders[i], Fill(s, i, r);
    if filled.Raised? then filled
    else if Alarms(o, r) then Done(PauseParent(filled.state, o.key.parent))
    else Done(Complete(filled.state, o.key))
  }
}
