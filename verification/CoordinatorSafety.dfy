/** No oversell: what every step of the coordinator keeps. */
module CoordinatorSafety {
  import opened Models
  import opened Coordinator
  import opened CoordinatorSums

  // ---------- the environment ----------

  /** The gateway never hands out one order id twice. */
  ghost predicate FreshIds(gw: Gateway) {
    forall i: nat, j: nat :: i < j && gw(j) != "" ==> gw(i) != gw(j)
  }

  ghost predicate Issued(gw: Gateway, n: nat, id: OrderId) {
    exists i: nat :: i < n && gw(i) == id
  }

  /**
   * What is assumed of an order report: it concerns an order the coordinator sent, its cumulative quantity is
   * at most the order's volume, and it does not exceed what was known when the order became final.
   */
  predicate Admissible(s: State, r: Report) {
    var i := IndexOf(s.orders, r.id);
    && i < |s.orders|
    && r.traded <= s.orders[i].volume
    && (IsFinal(s.orders[i].status) ==> r.traded <= s.orders[i].traded)
  }

  // ---------- the invariant ----------

  ghost predicate GoodChild(gw: Gateway, s: State, o: Child) {
    && o.parent == o.key.parent && Known(s, o.key)
    && 0 < o.volume && o.traded <= o.volume
    && o.id != "" && Issued(gw, |s.sent|, o.id)
  }

  ghost predicate GoodChildren(gw: Gateway, s: State) {
    && (forall i :: 0 <= i < |s.orders| ==> GoodChild(gw, s, s.orders[i]))
    && (forall i, j :: 0 <= i < j < |s.orders| ==> s.orders[i].id != s.orders[j].id)
  }

  /** A tranche has traded what its orders filled, and what is still live fits into its volume. */
  ghost predicate TrancheBooked(s: State, k: Key)
    requires Known(s, k)
  {
    && TrancheOf(s, k).traded == Sum(FilledOf(k), s.orders)
    && TrancheOf(s, k).traded + Sum(LiveOf(k), s.orders) <= TrancheOf(s, k).volume
  }

  ghost predicate ParentBooked(p: Parent) {
    p.traded == Traded(p.tranches) && p.total == Volumes(p.tranches)
  }

  ghost predicate Books(s: State) {
    && (forall k :: Known(s, k) ==> TrancheBooked(s, k))
    && (forall p :: p in s.parents ==> ParentBooked(s.parents[p]))
  }

  /** A stored target covers exactly the remaining lots of an active tranche. */
  ghost predicate TargetSound(s: State, k: Key)
    requires k in s.targets
  {
    && Known(s, k)
    && TrancheOf(s, k).status == Active
    && Total(s.targets[k].allocation) == TrancheOf(s, k).Remaining()
  }

  ghost predicate PhaseSound(s: State, k: Key)
    requires Known(s, k)
  {
    var t := TrancheOf(s, k);
    && (t.status == Active ==> s.parents[k.parent].status == Running && t.Remaining() > 0)
    && (t.status == Waiting ==> Sum(LiveOf(k), s.orders) == 0 && t.Remaining() > 0)
  }

  ghost predicate Phases(s: State) {
    && (forall k :: k in s.targets ==> TargetSound(s, k))
    && (forall k :: Known(s, k) ==> PhaseSound(s, k))
  }

  ghost predicate Inv(gw: Gateway, s: State) {
    GoodChildren(gw, s) && Books(s) && Phases(s)
  }

  // ---------- what the invariant means ----------

  /** Free lots of the first n tranches of a parent. */
  function Slack(p: ParentId, ts: seq<Tranche>, os: seq<Child>, n: nat): int
    requires n <= |ts|
  {
    if n == 0 then 0
    else Slack(p, ts, os, n - 1) + ts[n - 1].volume - ts[n - 1].traded - Sum(LiveOf(Key(p, n - 1)), os)
  }

  lemma {:induction false} SlackIs(p: ParentId, ts: seq<Tranche>, os: seq<Child>, n: nat)
    requires n <= |ts|
    ensures Slack(p, ts, os, n) == Volumes(ts[..n]) - Traded(ts[..n]) - TrancheLive(p, os, n)
  {
    if n == 0 {
    } else {
      SlackIs(p, ts, os, n - 1);
      assert ts[..n][..n - 1] == ts[..n - 1];
    }
  }

  lemma {:induction false} SlackMember(p: ParentId, ts: seq<Tranche>, os: seq<Child>, n: nat, i: nat)
    requires i < n <= |ts|
    requires forall j :: 0 <= j < n ==> ts[j].traded + Sum(LiveOf(Key(p, j)), os) <= ts[j].volume
    ensures Slack(p, ts, os, n) >= ts[i].volume - ts[i].traded - Sum(LiveOf(Key(p, i)), os)
    ensures forall j :: 0 <= j < n ==> Slack(p, ts, os, j) >= 0
  {
    if n > 1 {
      SlackMember(p, ts, os, n - 1, if i < n - 1 then i else 0);
      assert Slack(p, ts, os, n - 1) >= 0 by {
        SlackMember(p, ts, os, n - 1, 0);
      }
    }
  }

  /** The free lots of a parent are those of its tranches together, so a tranche's limit is never cut by its parent's. */
  lemma ParentSlack(gw: Gateway, s: State, k: Key)
    requires Inv(gw, s) && Known(s, k)
    ensures var p, t := s.parents[k.parent], TrancheOf(s, k);
            && p.traded + Sum(ParentLive(k.parent), s.orders) <= p.total
            && Available(s, k) == t.volume - t.traded - Sum(LiveOf(k), s.orders)
  {
    var p, ts := k.parent, s.parents[k.parent].tranches;
    forall j | 0 <= j < |ts|
      ensures ts[j].traded + Sum(LiveOf(Key(p, j)), s.orders) <= ts[j].volume
    {
      assert TrancheBooked(s, Key(p, j));
    }
    assert TrancheBooked(s, k) && ParentBooked(s.parents[p]);
    SlackMember(p, ts, s.orders, |ts|, k.index);
    SlackIs(p, ts, s.orders, |ts|);
    assert ts[..|ts|] == ts;
    OrdersInRange(gw, s, p);
    TranchesPartition(p, s.orders, |ts|);
    assert k == Key(p, k.index);
  }

  lemma OrdersInRange(gw: Gateway, s: State, p: ParentId)
    requires GoodChildren(gw, s) && p in s.parents
    ensures forall i :: 0 <= i < |s.orders| ==>
              s.orders[i].parent == s.orders[i].key.parent
              && (s.orders[i].parent == p ==> s.orders[i].key.index < |s.parents[p].tranches|)
  {
    forall i | 0 <= i < |s.orders|
      ensures s.orders[i].parent == s.orders[i].key.parent
      ensures s.orders[i].parent == p ==> s.orders[i].key.index < |s.parents[p].tranches|
    {
      assert GoodChild(gw, s, s.orders[i]);
    }
  }

  /** No oversell, so assert_hard_limits never raises. */
  lemma NoOversell(gw: Gateway, s: State, p: ParentId)
    requires Inv(gw, s) && p in s.parents
    ensures WithinLimits(s, p)
  {
    var parent := s.parents[p];
    if |parent.tranches| > 0 {
      ParentSlack(gw, s, Key(p, 0));
    } else {
      assert ParentBooked(parent);
      OrdersInRange(gw, s, p);
      forall i | 0 <= i < |s.orders|
        ensures Weight(ParentLive(p), s.orders[i]) == 0
      {
        assert GoodChild(gw, s, s.orders[i]);
      }
      SumZero(ParentLive(p), s.orders);
    }
    forall i | 0 <= i < |parent.tranches|
      ensures parent.tranches[i].traded + Sum(LiveOf(Key(p, i)), s.orders) <= parent.tranches[i].volume
    {
      assert TrancheBooked(s, Key(p, i));
    }
  }

  /** Three ledgers agree: the parent, its tranches, and the child orders it sent. */
  lemma LedgersAgree(gw: Gateway, s: State, p: ParentId)
    requires Inv(gw, s) && p in s.parents
    ensures s.parents[p].traded == Traded(s.parents[p].tranches) == Sum(ParentFilled(p), s.orders)
  {
    var ts := s.parents[p].tranches;
    assert ParentBooked(s.parents[p]);
    OrdersInRange(gw, s, p);
    FillsPartition(p, s.orders, |ts|);
    TradedIsFilled(s, p, |ts|);
    assert ts[..|ts|] == ts;
  }

  lemma {:induction false} TradedIsFilled(s: State, p: ParentId, n: nat)
    requires Books(s) && p in s.parents && n <= |s.parents[p].tranches|
    ensures Traded(s.parents[p].tranches[..n]) == TrancheFilled(p, s.orders, n)
  {
    if n == 0 {
    } else {
      var ts := s.parents[p].tranches;
      TradedIsFilled(s, p, n - 1);
      assert ts[..n][..n - 1] == ts[..n - 1];
      assert TrancheBooked(s, Key(p, n - 1));
    }
  }

  // ---------- steps that move no lots ----------

  /** Same volumes and fills everywhere; statuses may differ. */
  predicate SameAmounts(s: State, s': State) {
    && SameTranches(s, s')
    && forall p :: p in s.parents ==>
      && s'.parents[p].total == s.parents[p].total
      && s'.parents[p].traded == s.parents[p].traded
      && SameLots(s.parents[p].tranches, s'.parents[p].tranches)
  }

  lemma KeepsBooks(gw: Gateway, s: State, s': State)
    requires GoodChildren(gw, s) && Books(s)
    requires SameAmounts(s, s') && OnlyMarked(s.orders, s'.orders) && s.sent <= s'.sent
    ensures GoodChildren(gw, s') && Books(s')
  {
    forall i | 0 <= i < |s'.orders|
      ensures GoodChild(gw, s', s'.orders[i])
    {
      assert GoodChild(gw, s, s.orders[i]);
      IssuedGrows(gw, |s.sent|, |s'.sent|, s.orders[i].id);
    }
    forall k | Known(s', k)
      ensures TrancheBooked(s', k)
    {
      assert TrancheBooked(s, k);
      assert SameLots(s.parents[k.parent].tranches, s'.parents[k.parent].tranches);
      MarkedSum(FilledOf(k), s.orders, s'.orders);
      MarkedSum(LiveOf(k), s.orders, s'.orders);
    }
    forall p | p in s'.parents
      ensures ParentBooked(s'.parents[p])
    {
      assert ParentBooked(s.parents[p]);
      LotsAlike(s.parents[p].tranches, s'.parents[p].tranches);
    }
  }

  lemma IssuedGrows(gw: Gateway, n: nat, n': nat, id: OrderId)
    requires Issued(gw, n, id) && n <= n'
    ensures Issued(gw, n', id)
  {
    var i: nat :| i < n && gw(i) == id;
  }

  /** A tranche's phase survives a step that neither activates it nor makes it wait, on a parent still running. */
  ghost predicate CalmStep(s: State, s': State, k: Key)
    requires Known(s, k) && Known(s', k)
  {
    var t, t' := TrancheOf(s, k), TrancheOf(s', k);
    && (t'.status == Active ==> t.status == Active && s'.parents[k.parent].status == s.parents[k.parent].status)
    && (t'.status == Waiting ==> t.status == Waiting || (Sum(LiveOf(k), s.orders) == 0 && t.Remaining() > 0))
    && (k in s'.targets ==> t'.status == Active && k in s.targets && s'.targets[k].allocation == s.targets[k].allocation)
  }

  lemma KeepsInv(gw: Gateway, s: State, s': State)
    requires Inv(gw, s)
    requires SameAmounts(s, s') && OnlyMarked(s.orders, s'.orders) && s.sent <= s'.sent
    requires s'.targets.Keys <= s.targets.Keys
    requires forall k :: Known(s, k) ==> CalmStep(s, s', k)
    ensures Inv(gw, s')
  {
    KeepsBooks(gw, s, s');
    forall k | Known(s', k)
      ensures PhaseSound(s', k)
      ensures k in s'.targets ==> TargetSound(s', k)
    {
      assert Known(s, k) && PhaseSound(s, k) && CalmStep(s, s', k);
      assert SameLots(s.parents[k.parent].tranches, s'.parents[k.parent].tranches);
      MarkedSum(LiveOf(k), s.orders, s'.orders);
      assert k in s'.targets ==> TargetSound(s, k);
    }
    forall k | k in s'.targets
      ensures TargetSound(s', k)
    {
      assert TargetSound(s, k) && Known(s', k);
    }
  }

  lemma PauseAmounts(s: State, p: ParentId)
    requires p in s.parents
    ensures var s' := PauseParent(s, p);
            SameAmounts(s, s') && OnlyMarked(s.orders, s'.orders) && s'.sent == s.sent && s'.targets.Keys <= s.targets.Keys
  {
  }

  lemma PauseCalm(s: State, p: ParentId, k: Key)
    requires p in s.parents && Known(s, k) && PhaseSound(s, k) && (k in s.targets ==> TargetSound(s, k))
    ensures Known(PauseParent(s, p), k) && CalmStep(s, PauseParent(s, p), k)
  {
    hide Sum, Total;
  }

  lemma PauseKeeps(gw: Gateway, s: State, p: ParentId)
    requires Inv(gw, s) && p in s.parents
    ensures Inv(gw, PauseParent(s, p))
  {
    hide Sum, PauseParent, GoodChildren, Books, SameAmounts, OnlyMarked, CalmStep, PhaseSound, TargetSound, Inv;
    PauseAmounts(s, p);
    forall k | Known(s, k)
      ensures Known(PauseParent(s, p), k) && CalmStep(s, PauseParent(s, p), k)
    {
      SoundAt(gw, s, k);
      PauseCalm(s, p, k);
    }
    KeepsInv(gw, s, PauseParent(s, p));
  }

  lemma SoundAt(gw: Gateway, s: State, k: Key)
    requires Inv(gw, s) && Known(s, k)
    ensures PhaseSound(s, k) && (k in s.targets ==> TargetSound(s, k))
  {
  }

  lemma CancelKeeps(gw: Gateway, s: State, p: ParentId)
    requires Inv(gw, s) && p in s.parents
    ensures Inv(gw, CancelParent(s, p))
  {
    hide Sum, CancelParent, GoodChildren, Books, SameAmounts, OnlyMarked, CalmStep, PhaseSound, TargetSound, Inv;
    CancelAmounts(s, p);
    forall k | Known(s, k)
      ensures Known(CancelParent(s, p), k) && CalmStep(s, CancelParent(s, p), k)
    {
      SoundAt(gw, s, k);
      CancelCalm(s, p, k);
    }
    KeepsInv(gw, s, CancelParent(s, p));
  }

  lemma CancelAmounts(s: State, p: ParentId)
    requires p in s.parents
    ensures var s' := CancelParent(s, p);
            SameAmounts(s, s') && OnlyMarked(s.orders, s'.orders) && s'.sent == s.sent && s'.targets.Keys <= s.targets.Keys
  {
  }

  lemma CancelCalm(s: State, p: ParentId, k: Key)
    requires p in s.parents && Known(s, k) && PhaseSound(s, k) && (k in s.targets ==> TargetSound(s, k))
    ensures Known(CancelParent(s, p), k) && CalmStep(s, CancelParent(s, p), k)
  {
    hide Sum, Total;
  }

  lemma ResumeKeeps(gw: Gateway, s: State, p: ParentId)
    requires Inv(gw, s) && p in s.parents
    ensures Inv(gw, ResumeParent(s, p).state)
  {
    hide Sum;
    var s' := ResumeParent(s, p).state;
    if s'.parents != s.parents {
      forall k | Known(s, k)
        ensures CalmStep(s, s', k)
      {
        assert PhaseSound(s, k);
        assert k in s.targets ==> TargetSound(s, k);
        if k.parent == p {
          ChildrenGone(gw, s, k);
        }
      }
      KeepsInv(gw, s, s');
    }
  }

  /** Without live orders of a parent there are none of its tranches. */
  lemma ChildrenGone(gw: Gateway, s: State, k: Key)
    requires GoodChildren(gw, s) && Known(s, k)
    ensures Sum(LiveOf(k), s.orders) <= Sum(ParentLive(k.parent), s.orders)
  {
    forall i | 0 <= i < |s.orders|
      ensures Weight(LiveOf(k), s.orders[i]) <= Weight(ParentLive(k.parent), s.orders[i])
    {
      assert GoodChild(gw, s, s.orders[i]);
    }
    SumAtMost(LiveOf(k), s.orders, ParentLive(k.parent));
  }

  lemma MarkKeeps(gw: Gateway, s: State, os: seq<Child>)
    requires Inv(gw, s) && OnlyMarked(s.orders, os)
    ensures Inv(gw, s.(orders := os))
  {
    forall k | Known(s, k)
      ensures CalmStep(s, s.(orders := os), k)
    {
      assert k in s.targets ==> TargetSound(s, k);
    }
    KeepsInv(gw, s, s.(orders := os));
  }

  // ---------- sending ----------

  /** An order within the free lots of an active or closing tranche oversells nothing. */
  lemma SendKeeps(gw: Gateway, s: State, r: Request)
    requires Inv(gw, s) && FreshIds(gw) && Known(s, r.key)
    requires r.quantity <= Available(s, r.key) && TrancheOf(s, r.key).status != Waiting
    ensures Inv(gw, Send(gw, s, r))
  {
    if r.quantity > 0 {
      var id, s1 := gw(|s.sent|), s.(sent := s.sent + [r]);
      forall k | Known(s, k)
        ensures CalmStep(s, s1, k)
      {
        assert k in s.targets ==> TargetSound(s, k);
      }
      KeepsInv(gw, s, s1);
      if id == "" {
        PauseKeeps(gw, s1, r.key.parent);
      } else {
        NewId(gw, s, id);
        SendRecords(gw, s, r, id);
      }
    }
  }

  lemma NewId(gw: Gateway, s: State, id: OrderId)
    requires GoodChildren(gw, s) && FreshIds(gw) && id == gw(|s.sent|) && id != ""
    ensures !HasId(s.orders, id)
  {
    forall i | 0 <= i < |s.orders|
      ensures s.orders[i].id != id
    {
      assert GoodChild(gw, s, s.orders[i]);
      var n: nat :| n < |s.sent| && gw(n) == s.orders[i].id;
    }
  }

  lemma SendRecords(gw: Gateway, s: State, r: Request, id: OrderId)
    requires Inv(gw, s) && Known(s, r.key) && 0 < r.quantity
    requires r.quantity <= Available(s, r.key) && TrancheOf(s, r.key).status != Waiting
    requires id == gw(|s.sent|) && id != "" && !HasId(s.orders, id)
    ensures Inv(gw, Send(gw, s, r))
  {
    var o := Child(id, r.key.parent, r.key, r.price, r.quantity, r.level, r.aggressive, 0, Submitting, false);
    ParentSlack(gw, s, r.key);
    AppendKeepsChildren(gw, s, o, r);
    AppendKeepsBooks(s, o, r);
    AppendKeepsPhases(s, o, r);
  }

  lemma AppendKeepsChildren(gw: Gateway, s: State, o: Child, r: Request)
    requires GoodChildren(gw, s) && !HasId(s.orders, o.id) && o.id == gw(|s.sent|) && o.id != ""
    requires o.parent == o.key.parent && Known(s, o.key) && o.traded <= o.volume && 0 < o.volume
    ensures GoodChildren(gw, s.(sent := s.sent + [r], orders := s.orders + [o]))
  {
    var s' := s.(sent := s.sent + [r], orders := s.orders + [o]);
    forall i | 0 <= i < |s'.orders|
      ensures GoodChild(gw, s', s'.orders[i])
    {
      if i < |s.orders| {
        assert GoodChild(gw, s, s.orders[i]);
        IssuedGrows(gw, |s.sent|, |s'.sent|, s.orders[i].id);
      } else {
        assert Issued(gw, |s'.sent|, o.id);
      }
    }
  }

  lemma AppendKeepsBooks(s: State, o: Child, r: Request)
    requires Books(s) && Known(s, o.key) && o.traded == 0
    requires TrancheOf(s, o.key).traded + Sum(LiveOf(o.key), s.orders) + o.Leaves() <= TrancheOf(s, o.key).volume
    ensures Books(s.(sent := s.sent + [r], orders := s.orders + [o]))
  {
    var s' := s.(sent := s.sent + [r], orders := s.orders + [o]);
    forall k | Known(s', k)
      ensures TrancheBooked(s', k)
    {
      assert Known(s, k) && TrancheBooked(s, k);
      SumAppend(FilledOf(k), s.orders, o);
      SumAppend(LiveOf(k), s.orders, o);
    }
    forall p | p in s'.parents
      ensures ParentBooked(s'.parents[p])
    {
      assert ParentBooked(s.parents[p]);
    }
  }

  lemma AppendKeepsPhases(s: State, o: Child, r: Request)
    requires Phases(s) && Known(s, o.key) && TrancheOf(s, o.key).status != Waiting
    ensures Phases(s.(sent := s.sent + [r], orders := s.orders + [o]))
  {
    var s' := s.(sent := s.sent + [r], orders := s.orders + [o]);
    forall k | Known(s', k)
      ensures PhaseSound(s', k)
    {
      assert Known(s, k) && PhaseSound(s, k);
      SumAppend(LiveOf(k), s.orders, o);
    }
    forall k | k in s'.targets
      ensures TargetSound(s', k)
    {
      assert TargetSound(s, k);
    }
  }

  // ---------- reconciliation ----------

  lemma {:induction false} SendDeficitsKeeps(gw: Gateway, s: State, k: Key, t: Target, b: nat)
    requires Inv(gw, s) && FreshIds(gw) && Known(s, k) && b <= INACTIVE
    requires TrancheOf(s, k).status != Waiting
    ensures Inv(gw, SendDeficits(gw, s, k, t, b))
    decreases INACTIVE - b
  {
    hide Sum, Inv, Send, Deficit, Available, FreshIds;
    if b == INACTIVE {
    } else {
      DeficitFits(s, k, t, b);
      SendKeeps(gw, s, Deficit(s, k, t, b));
      SendLeavesWaiting(gw, s, Deficit(s, k, t, b), k);
      SendDeficitsKeeps(gw, Send(gw, s, Deficit(s, k, t, b)), k, t, b + 1);
    }
  }

  lemma DeficitFits(s: State, k: Key, t: Target, b: nat)
    requires Known(s, k) && b < INACTIVE
    ensures Deficit(s, k, t, b).key == k && Deficit(s, k, t, b).quantity <= Available(s, k)
  {
    hide Available, Sum;
  }

  /** Sending never makes a tranche wait. */
  lemma SendLeavesWaiting(gw: Gateway, s: State, r: Request, k: Key)
    requires Known(s, r.key) && Known(s, k) && TrancheOf(s, k).status != Waiting
    ensures TrancheOf(Send(gw, s, r), k).status != Waiting
  {
  }

  lemma ReconcileKeeps(gw: Gateway, s: State, k: Key)
    requires Inv(gw, s) && FreshIds(gw) && Known(s, k)
    ensures Inv(gw, Reconcile(gw, s, k).state)
    ensures Reconcile(gw, s, k).Done?
  {
    if k in s.targets && s.parents[k.parent].status == Running {
      var t := s.targets[k];
      assert TargetSound(s, k);
      var s1 := s.(orders := MarkExcess(s.orders, k, t));
      MarkKeeps(gw, s, s1.orders);
      if Pending(s1.orders, k) {
        NoOversell(gw, s1, k.parent);
      } else {
        SendDeficitsKeeps(gw, s1, k, t, 0);
        NoOversell(gw, SendDeficits(gw, s1, k, t, 0), k.parent);
      }
    }
  }

  lemma RetargetKeeps(gw: Gateway, s: State, k: Key, t: Target)
    requires Inv(gw, s) && Known(s, k) && TrancheOf(s, k).status == Active
    requires Total(t.allocation) == TrancheOf(s, k).Remaining()
    ensures Inv(gw, s.(targets := s.targets[k := t]))
  {
    var s' := s.(targets := s.targets[k := t]);
    KeepsBooks(gw, s, s');
    forall q | q in s'.targets
      ensures TargetSound(s', q)
    {
      assert q != k ==> TargetSound(s, q);
    }
    forall q | Known(s', q)
      ensures PhaseSound(s', q)
    {
      assert PhaseSound(s, q);
    }
  }

  /** A policy decision on an active tranche. */
  lemma ApplyIntentKeeps(gw: Gateway, s: State, k: Key, intent: seq<real>, bid: int)
    requires Inv(gw, s) && FreshIds(gw) && Known(s, k) && Fractions(intent) && TrancheOf(s, k).status == Active
    ensures Inv(gw, ApplyIntent(gw, s, k, intent, bid).state)
    ensures ApplyIntent(gw, s, k, intent, bid).Done?
  {
    var t := Target(TargetQuantities(intent, TrancheOf(s, k).Remaining()), bid);
    RoundingConserves(intent, TrancheOf(s, k).Remaining());
    RetargetKeeps(gw, s, k, t);
    ReconcileKeeps(gw, s.(targets := s.targets[k := t]), k);
  }

  lemma ReconcilePendingKeeps(gw: Gateway, s: State, k: Key, bid: int)
    requires Inv(gw, s) && FreshIds(gw) && Known(s, k)
    ensures Inv(gw, ReconcilePending(gw, s, k, bid).state)
    ensures ReconcilePending(gw, s, k, bid).Done?
  {
    if k in s.targets && TrancheOf(s, k).status == Active {
      assert TargetSound(s, k);
      var t := s.targets[k].(bid := bid);
      RetargetKeeps(gw, s, k, t);
      ReconcileKeeps(gw, s.(targets := s.targets[k := t]), k);
    }
  }

  // ---------- closing ----------

  lemma FinishClosingKeeps(gw: Gateway, s: State, k: Key, bid: int)
    requires Inv(gw, s) && FreshIds(gw) && Known(s, k) && TrancheOf(s, k).status == Closing
    ensures Inv(gw, FinishClosing(gw, s, k, bid))
  {
    hide Sum;
    var t, s' := TrancheOf(s, k), FinishClosing(gw, s, k, bid);
    if t.Remaining() == 0 {
      forall q | Known(s, q)
        ensures CalmStep(s, s', q)
      {
        assert q in s.targets ==> TargetSound(s, q);
      }
      KeepsInv(gw, s, s');
    } else if Sum(LiveOf(k), s.orders) > 0 {
      MarkKeeps(gw, s, s'.orders);
    } else {
      SendKeeps(gw, s, Request(k, Min(t.Remaining(), Available(s, k)), bid, 0, true));
    }
  }

  lemma StartClosingKeeps(gw: Gateway, s: State, k: Key)
    requires Inv(gw, s) && Known(s, k)
    ensures var s1 := SetTranche(s, k, TrancheOf(s, k).(status := Closing));
            Inv(gw, s1.(targets := s.targets - {k}, orders := MarkTranche(s.orders, k)))
  {
    hide Sum;
    var s1 := SetTranche(s, k, TrancheOf(s, k).(status := Closing)).(targets := s.targets - {k}, orders := MarkTranche(s.orders, k));
    forall q | Known(s, q)
      ensures CalmStep(s, s1, q)
    {
      assert q in s.targets ==> TargetSound(s, q);
    }
    KeepsInv(gw, s, s1);
  }

  lemma BeginCloseKeeps(gw: Gateway, s: State, k: Key, bid: int)
    requires Inv(gw, s) && FreshIds(gw) && Known(s, k)
    ensures Inv(gw, BeginClose(gw, s, k, bid))
  {
    var t := TrancheOf(s, k);
    if t.status == Closing {
      FinishClosingKeeps(gw, s, k, bid);
    } else if t.status == Active || t.status == Waiting {
      StartClosingKeeps(gw, s, k);
      var s1 := SetTranche(s, k, t.(status := Closing)).(targets := s.targets - {k}, orders := MarkTranche(s.orders, k));
      FinishClosingKeeps(gw, s1, k, bid);
    }
  }

  lemma ContinueCloseKeeps(gw: Gateway, s: State, k: Key, bid: int)
    requires Inv(gw, s) && FreshIds(gw) && Known(s, k)
    ensures Inv(gw, ContinueClose(gw, s, k, bid))
  {
    if TrancheOf(s, k).status == Closing {
      FinishClosingKeeps(gw, s, k, bid);
    }
  }

  // ---------- order reports ----------

  /** The order, its tranche and its parent after a fill of delta lots. */
  predicate Filled(s: State, b: State, i: nat, o': Child, delta: nat)
    requires i < |s.orders| && Known(s, o'.key)
  {
    var k, p, t := o'.key, s.parents[o'.key.parent], TrancheOf(s, o'.key);
    && b.sent == s.sent
    && b.orders == s.orders[i := o']
    && b.parents == s.parents[k.parent := p.(traded := p.traded + delta, tranches := p.tranches[k.index := t.(traded := t.traded + delta)])]
  }

  predicate Shrinks(o: Child, o': Child, delta: nat) {
    && o' == o.(traded := o.traded + delta, status := o'.status)
    && o'.traded <= o'.volume
    && o'.Leaves() + delta <= o.Leaves()
  }

  /** Within the limits no clamp binds. */
  lemma NoClamp(s: State, i: nat, o': Child, delta: nat)
    requires i < |s.orders| && Known(s, o'.key)
    requires TrancheOf(s, o'.key).traded + delta <= TrancheOf(s, o'.key).volume
    requires s.parents[o'.key.parent].traded + delta <= s.parents[o'.key.parent].total
    ensures Filled(s, Book(s.(orders := s.orders[i := o']), o', delta).state, i, o', delta)
  {
    if delta == 0 {
      var k := o'.key;
      assert s.parents[k.parent].tranches[k.index := TrancheOf(s, k)] == s.parents[k.parent].tranches;
      assert s.parents[k.parent := s.parents[k.parent]] == s.parents;
    }
  }

  /** An order's live lots fit into the free lots of its tranche and of its parent. */
  lemma FillFits(gw: Gateway, s: State, i: nat, o': Child, delta: nat)
    requires Inv(gw, s) && i < |s.orders| && Shrinks(s.orders[i], o', delta)
    ensures Known(s, o'.key)
    ensures TrancheOf(s, o'.key).traded + delta <= TrancheOf(s, o'.key).volume
    ensures s.parents[o'.key.parent].traded + delta <= s.parents[o'.key.parent].total
  {
    var k := o'.key;
    assert GoodChild(gw, s, s.orders[i]);
    SumMember(LiveOf(k), s.orders, i);
    assert TrancheBooked(s, k);
    ParentSlack(gw, s, k);
    ChildrenGone(gw, s, k);
  }

  lemma FilledKeepsChildren(gw: Gateway, s: State, b: State, i: nat, o': Child, delta: nat)
    requires GoodChildren(gw, s) && i < |s.orders| && Known(s, o'.key)
    requires Shrinks(s.orders[i], o', delta) && Filled(s, b, i, o', delta)
    ensures SameTranches(s, b) && GoodChildren(gw, b)
  {
    forall j | 0 <= j < |b.orders|
      ensures GoodChild(gw, b, b.orders[j])
    {
      assert GoodChild(gw, s, s.orders[j]);
    }
  }

  lemma FilledKeepsBooks(s: State, b: State, i: nat, o': Child, delta: nat)
    requires Books(s) && i < |s.orders| && Known(s, o'.key)
    requires Shrinks(s.orders[i], o', delta) && Filled(s, b, i, o', delta)
    ensures Books(b)
  {
    forall q | Known(b, q)
      ensures TrancheBooked(b, q)
    {
      FilledTranche(s, b, i, o', delta, q);
    }
    forall p | p in b.parents
      ensures ParentBooked(b.parents[p])
    {
      assert ParentBooked(s.parents[p]);
      var k := o'.key;
      if p == k.parent {
        TradedUpdate(s.parents[p].tranches, k.index, TrancheOf(s, k).(traded := TrancheOf(s, k).traded + delta));
      }
    }
  }

  lemma FilledTranche(s: State, b: State, i: nat, o': Child, delta: nat, q: Key)
    requires Books(s) && i < |s.orders| && Known(s, o'.key)
    requires Shrinks(s.orders[i], o', delta) && Filled(s, b, i, o', delta)
    requires Known(b, q)
    ensures Known(s, q) && TrancheBooked(b, q)
    ensures TrancheOf(b, q) == if q == o'.key then TrancheOf(s, q).(traded := TrancheOf(s, q).traded + delta) else TrancheOf(s, q)
  {
    assert Known(s, q) && TrancheBooked(s, q);
    SumUpdate(FilledOf(q), s.orders, i, o');
    SumUpdate(LiveOf(q), s.orders, i, o');
  }

  /** A fill within the remaining lots is taken from the current target in full. */
  lemma BookConsumes(s: State, i: nat, o': Child, delta: nat)
    requires i < |s.orders| && Known(s, o'.key)
    requires forall q :: q in s.targets ==> TargetSound(s, q)
    requires TrancheOf(s, o'.key).traded + delta <= TrancheOf(s, o'.key).volume
    ensures var b, k := Book(s.(orders := s.orders[i := o']), o', delta), o'.key;
            && b.Done?
            && b.state.targets.Keys == s.targets.Keys
            && (forall q :: q in s.targets && q != k ==> b.state.targets[q] == s.targets[q])
            && (k in s.targets ==>
                  b.state.targets[k].bid == s.targets[k].bid
                  && Total(b.state.targets[k].allocation) == Total(s.targets[k].allocation) - delta)
  {
    hide Consume, Total, Priority;
    var k := o'.key;
    if delta > 0 && k in s.targets {
      assert TargetSound(s, k);
      ConsumeAll(s.targets[k].allocation, Preferred(o', s.targets[k].bid), delta);
    }
  }

  /** After a fill the targets again cover exactly the remaining lots. */
  lemma FilledKeepsTargets(s: State, b: State, i: nat, o': Child, delta: nat, q: Key)
    requires i < |s.orders| && Known(s, o'.key) && q in b.targets && q in s.targets && TargetSound(s, q)
    requires TrancheOf(s, o'.key).traded + delta <= TrancheOf(s, o'.key).volume
    requires Filled(s, b, i, o', delta)
    requires Total(b.targets[q].allocation) == Total(s.targets[q].allocation) - if q == o'.key then delta else 0
    ensures TargetSound(b, q)
  {
  }

  /** The fill of an admissible report: no clamp binds, the target covers it, and the ledgers stay equal. */
  lemma BookKeeps(gw: Gateway, s: State, i: nat, o': Child, delta: nat)
    requires Inv(gw, s) && i < |s.orders| && Shrinks(s.orders[i], o', delta)
    ensures Known(s, o'.key)
    ensures var b := Book(s.(orders := s.orders[i := o']), o', delta);
            && b.Done? && Filled(s, b.state, i, o', delta)
            && Known(b.state, o'.key)
            && GoodChildren(gw, b.state) && Books(b.state) && AlmostPhases(b.state, o'.key)
  {
    FillFits(gw, s, i, o', delta);
    NoClamp(s, i, o', delta);
    BookConsumes(s, i, o', delta);
    var b := Book(s.(orders := s.orders[i := o']), o', delta).state;
    FilledKeepsChildren(gw, s, b, i, o', delta);
    FilledKeepsBooks(s, b, i, o', delta);
    forall q | q in b.targets
      ensures TargetSound(b, q)
    {
      assert TargetSound(s, q);
      FilledKeepsTargets(s, b, i, o', delta, q);
    }
    FilledKeepsPhases(s, b, i, o', delta);
  }

  /** All phases are sound, except that tranche k may be active with nothing left, as right after its last fill. */
  ghost predicate AlmostPhases(s: State, k: Key) {
    && (forall q :: q in s.targets ==> TargetSound(s, q))
    && (forall q :: Known(s, q) && q != k ==> PhaseSound(s, q))
    && (Known(s, k) && TrancheOf(s, k).status == Active ==> s.parents[k.parent].status == Running)
    && (Known(s, k) && TrancheOf(s, k).status == Waiting ==> PhaseSound(s, k))
  }

  lemma FilledKeepsPhases(s: State, b: State, i: nat, o': Child, delta: nat)
    requires Books(s) && Phases(s) && i < |s.orders| && Known(s, o'.key)
    requires Shrinks(s.orders[i], o', delta) && Filled(s, b, i, o', delta)
    requires forall q :: q in b.targets ==> TargetSound(b, q)
    ensures AlmostPhases(b, o'.key)
  {
    var k := o'.key;
    SumMember(LiveOf(k), s.orders, i);
    forall q | Known(b, q)
      ensures q != k || TrancheOf(b, q).status == Waiting ==> PhaseSound(b, q)
      ensures q == k && TrancheOf(b, q).status == Active ==> b.parents[q.parent].status == Running
    {
      FilledTranche(s, b, i, o', delta, q);
      assert PhaseSound(s, q);
      SumUpdate(LiveOf(q), s.orders, i, o');
    }
  }

  /** Pausing settles the phases: no tranche of the parent stays active. */
  lemma PauseSettles(gw: Gateway, s: State, k: Key)
    requires GoodChildren(gw, s) && Books(s) && AlmostPhases(s, k) && Known(s, k)
    ensures Inv(gw, PauseParent(s, k.parent))
  {
    hide Sum, PauseParent, GoodChildren, Books, SameAmounts, OnlyMarked, AlmostPhases, PhaseSound, TargetSound;
    var s' := PauseParent(s, k.parent);
    PauseAmounts(s, k.parent);
    KeepsBooks(gw, s, s');
    forall q | Known(s', q)
      ensures PhaseSound(s', q)
    {
      PausedPhase(s, k, q);
    }
    forall q | q in s'.targets
      ensures TargetSound(s', q)
    {
      PausedTarget(s, k, q);
    }
  }

  lemma PausedPhase(s: State, k: Key, q: Key)
    requires AlmostPhases(s, k) && Known(s, k) && Known(PauseParent(s, k.parent), q)
    ensures PhaseSound(PauseParent(s, k.parent), q)
  {
    var s' := PauseParent(s, k.parent);
    assert q != k ==> PhaseSound(s, q);
    MarkedSum(LiveOf(q), s.orders, s'.orders);
    assert TrancheOf(s', q).traded == TrancheOf(s, q).traded && TrancheOf(s', q).volume == TrancheOf(s, q).volume;
  }

  lemma PausedTarget(s: State, k: Key, q: Key)
    requires AlmostPhases(s, k) && Known(s, k) && q in PauseParent(s, k.parent).targets
    ensures TargetSound(PauseParent(s, k.parent), q)
  {
    hide Sum, Total;
    assert TargetSound(s, q);
  }

  /** A filled tranche is completed, and a parent only when every tranche is filled. */
  lemma CompleteSettles(gw: Gateway, s: State, k: Key)
    requires GoodChildren(gw, s) && Books(s) && AlmostPhases(s, k) && Known(s, k)
    ensures Inv(gw, Complete(s, k))
  {
    var s' := Complete(s, k);
    CompleteAmounts(s, k);
    KeepsBooks(gw, s, s');
    forall q | Known(s', q)
      ensures PhaseSound(s', q)
    {
      CompletePhase(s, k, q);
    }
    forall q | q in s'.targets
      ensures TargetSound(s', q)
    {
      assert TargetSound(s, q);
      CompletePhase(s, k, q);
    }
  }

  lemma CompleteAmounts(s: State, k: Key)
    requires Known(s, k)
    ensures var s' := Complete(s, k);
            SameAmounts(s, s') && OnlyMarked(s.orders, s'.orders) && s'.sent == s.sent
            && (s'.targets == s.targets || s'.targets == s.targets - {k})
  {
  }

  lemma CompletePhase(s: State, k: Key, q: Key)
    requires Books(s) && AlmostPhases(s, k) && Known(s, k) && Known(s, q)
    ensures var s' := Complete(s, k);
            && Known(s', q) && PhaseSound(s', q)
            && TrancheOf(s', q) == (if q == k && TrancheOf(s, q).Remaining() == 0 then TrancheOf(s, q).(status := Completed) else TrancheOf(s, q))
  {
    var s' := Complete(s, k);
    CompleteAmounts(s, k);
    MarkedSum(LiveOf(q), s.orders, s'.orders);
    assert ParentBooked(s.parents[k.parent]) && TrancheBooked(s, q);
    if s.parents[k.parent].Remaining() == 0 && q.parent == k.parent {
      FilledParent(s, k.parent);
      assert q == Key(k.parent, q.index);
    }
    assert q != k ==> PhaseSound(s, q);
  }

  /** A parent with nothing left has no tranche with anything left. */
  lemma FilledParent(s: State, p: ParentId)
    requires Books(s) && p in s.parents && s.parents[p].Remaining() == 0
    ensures forall i :: 0 <= i < |s.parents[p].tranches| ==> s.parents[p].tranches[i].Remaining() == 0
  {
    var ts := s.parents[p].tranches;
    forall i | 0 <= i < |ts|
      ensures ts[i].traded <= ts[i].volume
    {
      assert TrancheBooked(s, Key(p, i));
    }
    assert ParentBooked(s.parents[p]);
    AllFilled(ts);
  }

  lemma {:induction false} AllFilled(ts: seq<Tranche>)
    requires forall i :: 0 <= i < |ts| ==> ts[i].traded <= ts[i].volume
    ensures Traded(ts) <= Volumes(ts)
    ensures Traded(ts) == Volumes(ts) ==> forall i :: 0 <= i < |ts| ==> ts[i].traded == ts[i].volume
  {
    if ts == [] {
    } else {
      AllFilled(ts[..|ts| - 1]);
      assert forall i :: 0 <= i < |ts| - 1 ==> ts[..|ts| - 1][i] == ts[i];
    }
  }

  lemma AbsorbShrinks(s: State, r: Report)
    requires Admissible(s, r) && s.orders[IndexOf(s.orders, r.id)].traded <= s.orders[IndexOf(s.orders, r.id)].volume
    ensures var o := s.orders[IndexOf(s.orders, r.id)];
            && o.traded <= Absorb(o, r).traded
            && Shrinks(o, Absorb(o, r), Absorb(o, r).traded - o.traded)
  {
  }

  /** An order report, in any order, duplicated or stale. */
  lemma ProcessOrderKeeps(gw: Gateway, s: State, r: Report)
    requires Inv(gw, s) && Admissible(s, r)
    ensures ProcessOrder(s, r).Done?
    ensures Inv(gw, ProcessOrder(s, r).state)
  {
    var i := IndexOf(s.orders, r.id);
    assert GoodChild(gw, s, s.orders[i]);
    DeliverKeeps(gw, s, i, r);
  }

  lemma DeliverKeeps(gw: Gateway, s: State, i: nat, r: Report)
    requires Inv(gw, s) && Admissible(s, r) && i == IndexOf(s.orders, r.id) && Known(s, s.orders[i].key)
    ensures Deliver(s, i, r).Done?
    ensures Inv(gw, Deliver(s, i, r).state)
  {
    FillKeeps(gw, s, i, r);
    var k, b := s.orders[i].key, Fill(s, i, r).state;
    if Alarms(s.orders[i], r) {
      PauseSettles(gw, b, k);
    } else {
      CompleteSettles(gw, b, k);
    }
  }

  lemma FillKeeps(gw: Gateway, s: State, i: nat, r: Report)
    requires Inv(gw, s) && Admissible(s, r) && i == IndexOf(s.orders, r.id) && Known(s, s.orders[i].key)
    ensures var b, k := Fill(s, i, r), s.orders[i].key;
            && b.Done? && Known(b.state, k)
            && GoodChildren(gw, b.state) && Books(b.state) && AlmostPhases(b.state, k)
  {
    hide Consume, ConsumeFill, Book, Sum, Total;
    var o, o' := s.orders[i], Absorb(s.orders[i], r);
    assert GoodChild(gw, s, o);
    AbsorbShrinks(s, r);
    BookKeeps(gw, s, i, o', o'.traded - o.traded);
  }
}
