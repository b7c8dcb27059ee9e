/** The event-flow series of the book's log: one entry per time stamp in each of six series. */
module FlowLog {
  import opened Wrappers
  import opened OrderBook
  import opened BookSteps

  /** What one order adds to the six series. */
  datatype Flow = Flow(marketBuy: nat, marketSell: nat, limitBuy: nat, limitSell: nat, cancelBuy: nat, cancelSell: nat)

  datatype Data = Data(times: seq<int>, marketBuy: seq<nat>, marketSell: seq<nat>, limitBuy: seq<nat>, limitSell: seq<nat>,
                       cancelBuy: seq<nat>, cancelSell: seq<nat>)

  const EMPTY_DATA := Data([], [], [], [], [], [], [])

  /** A market order on the bid side is a sale. Cancellations by volume are logged by their parts. */
  function FlowOf(m: Message): Flow {
    match m
    case Placed(_, _, side, _, volume) => if side == Bid then Flow(0, 0, volume, 0, 0, 0) else Flow(0, 0, 0, volume, 0, 0)
    case Traded(_, side, requested, _, _, _) => if side == Bid then Flow(0, requested, 0, 0, 0, 0) else Flow(requested, 0, 0, 0, 0, 0)
    case Cancelled(_, _, side, _, volume) => if side == Bid then Flow(0, 0, 0, 0, volume, 0) else Flow(0, 0, 0, 0, 0, volume)
    case Modified(_, _, side, volume, before) =>
      var v := if before > volume then before - volume else 0;
      if side == Bid then Flow(0, 0, 0, 0, v, 0) else Flow(0, 0, 0, 0, 0, v)
    case VolumeCancelled(_, _, _, _, _) => Flow(0, 0, 0, 0, 0, 0)
  }

  function Sum(s: seq<nat>): nat {
    if s == [] then 0 else Sum(s[..|s| - 1]) + s[|s| - 1]
  }

  /** All series have one entry per time stamp, and time stamps strictly increase. */
  predicate Aligned(d: Data) {
    && |d.marketBuy| == |d.marketSell| == |d.limitBuy| == |d.limitSell| == |d.cancelBuy| == |d.cancelSell| == |d.times|
    && forall i, j :: 0 <= i < j < |d.times| ==> d.times[i] < d.times[j]
  }

  predicate UpTo(d: Data, clock: Option<int>) {
    if d.times == [] then clock == None else clock == Some(d.times[|d.times| - 1])
  }

  /** The totals of the series. */
  function Totals(d: Data): Flow {
    Flow(Sum(d.marketBuy), Sum(d.marketSell), Sum(d.limitBuy), Sum(d.limitSell), Sum(d.cancelBuy), Sum(d.cancelSell))
  }

  function Plus(a: Flow, b: Flow): Flow {
    Flow(a.marketBuy + b.marketBuy, a.marketSell + b.marketSell, a.limitBuy + b.limitBuy, a.limitSell + b.limitSell,
         a.cancelBuy + b.cancelBuy, a.cancelSell + b.cancelSell)
  }

  /** Add to the last entry. */
  function Bump(s: seq<nat>, v: nat): (r: seq<nat>)
    requires s != []
    ensures |r| == |s|
  {
    s[..|s| - 1] + [s[|s| - 1] + v]
  }

  lemma SumBump(s: seq<nat>, v: nat)
    requires s != []
    ensures Sum(Bump(s, v)) == Sum(s) + v
  {
    assert Bump(s, v)[..|s| - 1] == s[..|s| - 1];
  }

  lemma SumAppendZero(s: seq<nat>)
    ensures Sum(s + [0]) == Sum(s)
  {
    assert (s + [0])[..|s|] == s;
  }

  /** A fresh row of zeros for a new time stamp. */
  function NewRow(d: Data, time: int): Data {
    Data(d.times + [time], d.marketBuy + [0], d.marketSell + [0], d.limitBuy + [0], d.limitSell + [0], d.cancelBuy + [0], d.cancelSell + [0])
  }

  lemma NewRowKeeps(d: Data, time: int)
    requires Aligned(d) && (d.times == [] || d.times[|d.times| - 1] < time)
    ensures Aligned(NewRow(d, time)) && Totals(NewRow(d, time)) == Totals(d)
  {
    SumAppendZero(d.marketBuy);
    SumAppendZero(d.marketSell);
    SumAppendZero(d.limitBuy);
    SumAppendZero(d.limitSell);
    SumAppendZero(d.cancelBuy);
    SumAppendZero(d.cancelSell);
  }

  /** The order's flow on top of the last row: one series grows. */
  function Added(d: Data, m: Message): Data
    requires Aligned(d) && d.times != []
  {
    match m
    case Traded(_, side, requested, _, _, _) =>
      if side == Bid then d.(marketSell := Bump(d.marketSell, requested)) else d.(marketBuy := Bump(d.marketBuy, requested))
    case Placed(_, _, side, _, volume) =>
      if side == Bid then d.(limitBuy := Bump(d.limitBuy, volume)) else d.(limitSell := Bump(d.limitSell, volume))
    case Cancelled(_, _, side, _, volume) =>
      if side == Bid then d.(cancelBuy := Bump(d.cancelBuy, volume)) else d.(cancelSell := Bump(d.cancelSell, volume))
    case Modified(_, _, side, volume, before) =>
      var v := if before > volume then before - volume else 0;
      if side == Bid then d.(cancelBuy := Bump(d.cancelBuy, v)) else d.(cancelSell := Bump(d.cancelSell, v))
    case VolumeCancelled(_, _, _, _, _) => d
  }

  lemma AddedKeeps(d: Data, m: Message)
    requires Aligned(d) && d.times != []
    ensures Aligned(Added(d, m)) && Added(d, m).times == d.times
    ensures Totals(Added(d, m)) == Plus(Totals(d), FlowOf(m))
  {
    hide Sum, Bump;
    match m
    case Traded(_, side, requested, _, _, _) =>
      SumBump(if side == Bid then d.marketSell else d.marketBuy, requested);
    case Placed(_, _, side, _, volume) =>
      SumBump(if side == Bid then d.limitBuy else d.limitSell, volume);
    case Cancelled(_, _, side, _, volume) =>
      SumBump(if side == Bid then d.cancelBuy else d.cancelSell, volume);
    case Modified(_, _, side, volume, before) =>
      SumBump(if side == Bid then d.cancelBuy else d.cancelSell, if before > volume then before - volume else 0);
    case VolumeCancelled(_, _, _, _, _) =>
  }

  /**
   * _logging: a row for a new time stamp, or the last row again, and the order's flow added to it. The log stays
   * aligned and its totals grow by exactly that flow.
   */
  method Record(d: Data, clock: Option<int>, time: int, m: Message) returns (r: Data)
    requires Aligned(d) && UpTo(d, clock) && !Late(clock, time)
    ensures Aligned(r) && UpTo(r, Some(time))
    ensures Totals(r) == Plus(Totals(d), FlowOf(m))
    ensures r.times == d.times || r.times == d.times + [time]
  {
    hide Bump, Totals, Plus, FlowOf, Added;
    r := d;
    if r.times == [] || clock.value < time {
      r := NewRow(d, time);
      NewRowKeeps(d, time);
    }
    AddedKeeps(r, m);
    r := Added(r, m);
  }

  // ---------- what counts as what ----------

  /** Each message is counted in the one series of its kind and side, with its lots; the parts of a cancellation by volume count instead of it. */
  lemma FlowIsOfItsKind(os: seq<Resting>, id: nat, o: Order)
    requires Sound(os) && Apply(os, id, o).Ok?
    ensures var f, os' := FlowOf(Reply(os, id, o)), Apply(os, id, o).value;
            && (f.limitBuy > 0 || f.limitSell > 0 ==> o.Limit?)
            && (f.marketBuy > 0 || f.marketSell > 0 ==> o.Market?)
            && (f.cancelBuy > 0 || f.cancelSell > 0 ==> o.Cancel? || o.Modify?)
            && (o.Limit? ==> if o.side == Bid then f.limitBuy == o.volume && f.limitSell == 0 else f.limitSell == o.volume && f.limitBuy == 0)
            && (o.Market? ==> if o.side == Bid then f.marketSell == o.volume && f.marketBuy == 0 else f.marketBuy == o.volume && f.marketSell == 0)
            && (o.Cancel? || o.Modify? ==>
                  && f.cancelBuy == Volume(Whole(Bid), os) - Volume(Whole(Bid), os')
                  && f.cancelSell == Volume(Whole(Ask), os) - Volume(Whole(Ask), os'))
  {
    hide Volume, Take, Fills;
    if !o.CancelVolume? {
      FlowConserves(os, id, o);
    }
  }

  // ---------- conservation ----------

  /** Requested but unfilled volume of a market order. */
  function Unfilled(m: Message, side: Side): nat {
    if m.Traded? && m.side == side && m.filled < m.requested then m.requested - m.filled else 0
  }

  /**
   * The volume resting on a side is what was placed less what was cancelled and what market orders requested,
   * except for the part of market orders that found no volume; parts log what a cancellation by volume removes.
   */
  lemma FlowConserves(os: seq<Resting>, id: nat, o: Order)
    requires Sound(os) && Apply(os, id, o).Ok? && !o.CancelVolume?
    ensures var m, os' := Reply(os, id, o), Apply(os, id, o).value;
            var f := FlowOf(m);
            && Volume(Whole(Bid), os') + f.cancelBuy + f.marketSell == Volume(Whole(Bid), os) + f.limitBuy + Unfilled(m, Bid)
            && Volume(Whole(Ask), os') + f.cancelSell + f.marketBuy == Volume(Whole(Ask), os) + f.limitSell + Unfilled(m, Ask)
  {
    hide Volume, Take, Fills;
    match o
    case Limit(agent, side, price, volume, _) =>
      VolumeAppend(Whole(Bid), os, Resting(id, agent, side, price, volume));
      VolumeAppend(Whole(Ask), os, Resting(id, agent, side, price, volume));
    case Market(_, side, volume) =>
      TakeConserves(os, side, volume);
      TakeOutside(os, side, volume, Whole(Opposite(side)));
    case Cancel(_, other) =>
      VolumeRemove(Whole(Bid), os, Position(os, other));
      VolumeRemove(Whole(Ask), os, Position(os, other));
    case Modify(_, other, volume) =>
      VolumeResize(Whole(Bid), os, Position(os, other), volume);
      VolumeResize(Whole(Ask), os, Position(os, other), volume);
  }
}
