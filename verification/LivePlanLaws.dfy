/** What every sequence of session operations keeps. */
module LivePlanLaws {
  import opened Text
  import opened Sorting
  import opened LivePlanIds
  import opened LivePlan

  // ---- Unique ids, growing lists, verification stamps -----------------------------------

  ghost predicate UniqueIds(s: State) {
    && NoDup(SegmentIds(s.segments)) && NoDup(ReferenceIds(s.references))
    && NoDup(ItemIds(s.items)) && NoDup(HandIds(s.hands))
  }

  lemma UniqueSnoc<T>(s: seq<T>, x: T, id: T -> string)
    requires NoDup(Map(s, id)) && id(x) !in Map(s, id)
    ensures NoDup(Map(s + [x], id))
  {
    MapSnoc(s, x, id);
  }

  lemma {:induction false} UpdateKeepsIds<T>(s: seq<T>, i: nat, y: T, id: T -> string)
    requires i < |s| && id(y) == id(s[i])
    ensures Map(s[i := y], id) == Map(s, id)
  {
    if i > 0 {
      UpdateKeepsIds(s[1..], i - 1, y, id);
      assert s[i := y][1..] == s[1..][i - 1 := y];
    }
  }

  lemma SettleKeepsIds(hands: seq<Hand>, item: string, outcome: string, now: string)
    ensures HandIds(SettleFor(hands, item, outcome, now)) == HandIds(hands)
  {
    var i := PendingFor(hands, item);
    if i.Some? {
      UpdateKeepsIds(hands, i.value, Settled(hands[i.value], outcome, now), HandId);
    }
  }

  lemma ApplyKeepsUniqueIds(s: State, op: Op, now: string)
    requires UniqueIds(s) && Apply(s, op, now).Done?
    ensures UniqueIds(Apply(s, op, now).state)
  {
    var t := Apply(s, op, now).state;
    match op
    case AddSegment(_, _, _, _) => UniqueSnoc(s.segments, t.segments[|s.segments|], SegmentId);
    case AddReference(_, _, _, _, _, _, _) => UniqueSnoc(s.references, t.references[|s.references|], ReferenceId);
    case Propose(_, _, _, _, readBack) =>
      UniqueSnoc(s.items, t.items[|s.items|], ItemId);
      if readBack {
        UniqueSnoc(s.hands, t.hands[|s.hands|], HandId);
      }
    case Confirm(id, verdict, _, _) =>
      var i := IndexOf(ItemIds(s.items), id).value;
      UpdateKeepsIds(s.items, i, Confirmed(s.items[i], op, now), ItemId);
      SettleKeepsIds(s.hands, id, if Verified(verdict) then "approved" else "dismissed", now);
    case Raise(_, _) => UniqueSnoc(s.hands, t.hands[|s.hands|], HandId);
    case Resolve(id, outcome) =>
      var i := IndexOf(HandIds(s.hands), id).value;
      UpdateKeepsIds(s.hands, i, Settled(s.hands[i], outcome, now), HandId);
    case SetMode(_) =>
  }

  /** An item carries a verification time exactly when it is confirmed or amended. */
  ghost predicate StampedWhenVerified(s: State) {
    forall i :: 0 <= i < |s.items| ==> (s.items[i].verifiedAt != "" <==> Verified(s.items[i].status))
  }

  lemma ApplyKeepsStamps(s: State, op: Op, now: string)
    requires StampedWhenVerified(s) && now != "" && Apply(s, op, now).Done?
    ensures StampedWhenVerified(Apply(s, op, now).state)
  {
    if op.Propose? {
      assert !Verified(READ_BACK) && !Verified("draft");
    }
  }

  /** Segments and references are only ever added; items and hands keep their ids. */
  ghost predicate Extends(s: State, t: State) {
    && s.segments <= t.segments && s.references <= t.references
    && ItemIds(s.items) <= ItemIds(t.items) && HandIds(s.hands) <= HandIds(t.hands)
  }

  lemma ApplyExtends(s: State, op: Op, now: string)
    requires Apply(s, op, now).Done?
    ensures Extends(s, Apply(s, op, now).state)
  {
    var t := Apply(s, op, now).state;
    match op
    case Propose(_, _, _, _, readBack) =>
      MapSnoc(s.items, t.items[|s.items|], ItemId);
      if readBack {
        MapSnoc(s.hands, t.hands[|s.hands|], HandId);
      }
    case Confirm(id, verdict, _, _) =>
      var i := IndexOf(ItemIds(s.items), id).value;
      UpdateKeepsIds(s.items, i, Confirmed(s.items[i], op, now), ItemId);
      SettleKeepsIds(s.hands, id, if Verified(verdict) then "approved" else "dismissed", now);
    case Raise(_, _) => MapSnoc(s.hands, t.hands[|s.hands|], HandId);
    case Resolve(id, outcome) =>
      var i := IndexOf(HandIds(s.hands), id).value;
      UpdateKeepsIds(s.hands, i, Settled(s.hands[i], outcome, now), HandId);
    case _ =>
  }

  // ---- Pending hands point at items awaiting read-back -------------------------------------

  ghost function StatusOf(items: seq<Item>, id: string): Option<string> {
    var i := IndexOf(ItemIds(items), id);
    if i.None? then None else Some(items[i.value].status)
  }

  /** A pending linked hand points at an item awaiting read-back. */
  ghost predicate Pointing(items: seq<Item>, hands: seq<Hand>) {
    forall i :: 0 <= i < |hands| && hands[i].status == PENDING && hands[i].itemId != ""
      ==> StatusOf(items, hands[i].itemId) == Some(READ_BACK)
  }

  /** It does, and is the item's only pending hand. */
  ghost predicate Linked(items: seq<Item>, hands: seq<Hand>) {
    && Pointing(items, hands)
    && (forall i, j :: 0 <= i < j < |hands| && hands[i].itemId == hands[j].itemId != ""
          ==> hands[i].status != PENDING || hands[j].status != PENDING)
  }

  /** A new pending hand for `item` is sound. */
  ghost predicate CanAwait(s: State, item: string) {
    item != "" ==> StatusOf(s.items, item) == Some(READ_BACK) && PendingFor(s.hands, item).None?
  }

  /** What a caller can check before an operation that names a hand's link or reopens a hand. */
  ghost predicate Permitted(s: State, op: Op) {
    match op
    case Raise(_, link) => CanAwait(s, link)
    case Resolve(id, outcome) =>
      outcome == PENDING ==>
        var i := IndexOf(HandIds(s.hands), id);
        i.Some? ==> s.hands[i.value].status == PENDING || CanAwait(s, s.hands[i.value].itemId)
    case _ => true
  }

  lemma RaiseLinkedIff(s: State, h: Hand)
    requires Linked(s.items, s.hands) && h.status == PENDING
    ensures Linked(s.items, s.hands + [h]) <==> CanAwait(s, h.itemId)
  {
    var after := s.hands + [h];
    assert after[|s.hands|] == h;
    var i := PendingFor(s.hands, h.itemId);
    assert i.Some? ==> after[i.value] == s.hands[i.value];
  }

  lemma ReopenLinkedIff(s: State, i: nat, now: string)
    requires Linked(s.items, s.hands) && i < |s.hands|
    ensures Linked(s.items, s.hands[i := Settled(s.hands[i], PENDING, now)])
       <==> s.hands[i].status == PENDING || CanAwait(s, s.hands[i].itemId)
  {
    var after := s.hands[i := Settled(s.hands[i], PENDING, now)];
    assert after[i].status == PENDING;
    var j := PendingFor(s.hands, s.hands[i].itemId);
    assert j.Some? && j.value != i ==> after[j.value] == s.hands[j.value];
  }

  lemma CloseKeepsLinked(items: seq<Item>, hands: seq<Hand>, i: nat, outcome: string, now: string)
    requires Linked(items, hands) && i < |hands| && outcome != PENDING
    ensures Linked(items, hands[i := Settled(hands[i], outcome, now)])
  {
  }

  lemma {:induction false} IndexOfFirst(a: seq<string>, b: seq<string>, key: string)
    ensures IndexOf(a, key).Some? ==> IndexOf(a + b, key) == IndexOf(a, key)
  {
    if a != [] {
      IndexOfFirst(a[1..], b, key);
      assert (a + b)[1..] == a[1..] + b;
    }
  }

  lemma ProposeKeepsStatuses(items: seq<Item>, x: Item, id: string)
    ensures StatusOf(items, id).Some? ==> StatusOf(items + [x], id) == StatusOf(items, id)
    ensures x.id !in ItemIds(items) ==> StatusOf(items + [x], x.id) == Some(x.status)
  {
    MapSnoc(items, x, ItemId);
    IndexOfFirst(ItemIds(items), [x.id], id);
    if x.id !in ItemIds(items) {
      FirstIndexUnique(ItemIds(items + [x]), x.id, |items|);
    }
  }

  lemma ProposeKeepsLinked(s: State, x: Item)
    requires Linked(s.items, s.hands)
    ensures Linked(s.items + [x], s.hands)
  {
    forall i | 0 <= i < |s.hands| && s.hands[i].status == PENDING && s.hands[i].itemId != ""
      ensures StatusOf(s.items + [x], s.hands[i].itemId) == Some(READ_BACK)
    {
      ProposeKeepsStatuses(s.items, x, s.hands[i].itemId);
    }
  }

  lemma NewItemCanBeAwaited(s: State, x: Item)
    requires Linked(s.items, s.hands) && x.id !in ItemIds(s.items) && x.status == READ_BACK
    ensures CanAwait(s.(items := s.items + [x]), x.id)
  {
    ProposeKeepsStatuses(s.items, x, x.id);
  }

  lemma UpdateStatus(items: seq<Item>, i: nat, y: Item, id: string)
    requires i < |items| && y.id == items[i].id
    ensures id != y.id ==> StatusOf(items[i := y], id) == StatusOf(items, id)
  {
    UpdateKeepsIds(items, i, y, ItemId);
    var k := IndexOf(ItemIds(items), id);
    if id != y.id && k.Some? {
      IdAt(items, k.value);
    }
  }

  lemma {:induction false} IdAt(items: seq<Item>, k: nat)
    requires k < |items|
    ensures |ItemIds(items)| == |items| && ItemIds(items)[k] == items[k].id
  {
  }

  lemma ConfirmKeepsLinked(items: seq<Item>, hands: seq<Hand>, i: nat, y: Item, outcome: string, now: string)
    requires Linked(items, hands) && i < |items| && y.id == items[i].id && outcome != PENDING
    ensures Linked(items[i := y], SettleFor(hands, y.id, outcome, now))
  {
    var after := SettleFor(hands, y.id, outcome, now);
    forall k | 0 <= k < |after| && after[k].status == PENDING && after[k].itemId != ""
      ensures StatusOf(items[i := y], after[k].itemId) == Some(READ_BACK)
    {
      assert after[k] == hands[k];
      UpdateStatus(items, i, y, after[k].itemId);
    }
  }

  /** The link invariant survives a successful operation exactly when the operation is permitted. */
  lemma ApplyLinkedIff(s: State, op: Op, now: string)
    requires Linked(s.items, s.hands) && Apply(s, op, now).Done?
    ensures var t := Apply(s, op, now).state; Linked(t.items, t.hands) <==> Permitted(s, op)
  {
    var t := Apply(s, op, now).state;
    match op
    case Propose(_, _, _, _, readBack) =>
      var x := t.items[|s.items|];
      ProposeKeepsLinked(s, x);
      if readBack {
        NewItemCanBeAwaited(s, x);
        RaiseLinkedIff(s.(items := t.items), t.hands[|s.hands|]);
      }
    case Confirm(id, verdict, _, _) =>
      var i := IndexOf(ItemIds(s.items), id).value;
      IdAt(s.items, i);
      ConfirmKeepsLinked(s.items, s.hands, i, Confirmed(s.items[i], op, now),
                         if Verified(verdict) then "approved" else "dismissed", now);
    case Raise(_, _) => RaiseLinkedIff(s, t.hands[|s.hands|]);
    case Resolve(id, outcome) =>
      var i := IndexOf(HandIds(s.hands), id).value;
      if outcome == PENDING {
        ReopenLinkedIff(s, i, now);
      } else {
        CloseKeepsLinked(s.items, s.hands, i, outcome, now);
      }
    case _ =>
  }

  // ---- Pointing, and what keeps it ----------------------------------------------------------

  /** A new pending hand for `item` points at an item awaiting read-back. */
  ghost predicate CanPoint(s: State, item: string) {
    item != "" ==> StatusOf(s.items, item) == Some(READ_BACK)
  }

  /** What a caller can check before an operation: the link of a raised or reopened hand, or, before a verdict, that the
      item has no second pending hand. */
  ghost predicate KeepsPointing(s: State, op: Op) {
    match op
    case Raise(_, link) => CanPoint(s, link)
    case Resolve(id, outcome) =>
      outcome == PENDING ==>
        var i := IndexOf(HandIds(s.hands), id);
        i.Some? ==> CanPoint(s, s.hands[i.value].itemId)
    case Confirm(id, verdict, _, _) =>
      id == "" || verdict == READ_BACK || PendingFor(SettleFor(s.hands, id, "approved", ""), id).None?
    case _ => true
  }

  lemma PointingAfterConfirm(s: State, i: nat, y: Item, outcome: string, now: string)
    requires Pointing(s.items, s.hands) && i < |s.items| && y.id == s.items[i].id && outcome != PENDING
    requires IndexOf(ItemIds(s.items), y.id) == Some(i)
    ensures Pointing(s.items[i := y], SettleFor(s.hands, y.id, outcome, now)) <==>
            y.id == "" || y.status == READ_BACK || PendingFor(SettleFor(s.hands, y.id, "approved", ""), y.id).None?
  {
    var items, hands := s.items[i := y], SettleFor(s.hands, y.id, outcome, now);
    UpdateKeepsIds(s.items, i, y, ItemId);
    assert StatusOf(items, y.id) == Some(y.status);
    SettledAlike(s.hands, y.id, outcome, now);
    forall k | 0 <= k < |hands| && hands[k].status == PENDING && hands[k].itemId != y.id
      ensures hands[k] == s.hands[k] && StatusOf(items, hands[k].itemId) == StatusOf(s.items, hands[k].itemId)
    {
      UpdateStatus(s.items, i, y, hands[k].itemId);
    }
    var second := PendingFor(hands, y.id);
    assert second.Some? ==> hands[second.value].status == PENDING && hands[second.value].itemId == y.id;
  }

  /** Which hands of an item stay pending does not depend on the outcome the first one is settled with. */
  lemma SettledAlike(hands: seq<Hand>, item: string, outcome: string, now: string)
    requires outcome != PENDING
    ensures var a, b := SettleFor(hands, item, outcome, now), SettleFor(hands, item, "approved", "");
            PendingFor(a, item).Some? <==> PendingFor(b, item).Some?
  {
    var a, b := SettleFor(hands, item, outcome, now), SettleFor(hands, item, "approved", "");
    assert "approved" != PENDING;
    assert forall k :: 0 <= k < |hands| ==> (Awaits(a[k], item) <==> Awaits(b[k], item));
  }

  /** Pointing survives a successful operation exactly under that guard. */
  lemma ApplyPointingIff(s: State, op: Op, now: string)
    requires Pointing(s.items, s.hands) && Apply(s, op, now).Done?
    ensures var t := Apply(s, op, now).state; Pointing(t.items, t.hands) <==> KeepsPointing(s, op)
  {
    var t := Apply(s, op, now).state;
    match op
    case Propose(_, _, _, _, readBack) =>
      var x := t.items[|s.items|];
      forall id ensures StatusOf(s.items, id).Some? ==> StatusOf(t.items, id) == StatusOf(s.items, id) {
        ProposeKeepsStatuses(s.items, x, id);
      }
      ProposeKeepsStatuses(s.items, x, x.id);
    case Confirm(id, verdict, _, _) =>
      var i := IndexOf(ItemIds(s.items), id).value;
      IdAt(s.items, i);
      PointingAfterConfirm(s, i, Confirmed(s.items[i], op, now),
                           if Verified(verdict) then "approved" else "dismissed", now);
    case Raise(_, link) =>
      assert t.hands[|s.hands|].status == PENDING;
    case Resolve(id, outcome) =>
      var i := IndexOf(HandIds(s.hands), id).value;
      assert t.hands[i].status == outcome;
    case _ =>
  }

  /** Being linked is pointing, now and after a verdict on any item. */
  lemma LinkedIffVerdictsPoint(s: State, now: string)
    ensures Linked(s.items, s.hands) <==>
            Pointing(s.items, s.hands) &&
            forall id :: Pointed(Apply(s, Confirm(id, "confirmed", "", ""), now))
  {
    if Linked(s.items, s.hands) {
      forall id ensures Pointed(Apply(s, Confirm(id, "confirmed", "", ""), now)) {
        if Apply(s, Confirm(id, "confirmed", "", ""), now).Done? {
          ApplyLinkedIff(s, Confirm(id, "confirmed", "", ""), now);
        }
      }
    } else if Pointing(s.items, s.hands) {
      var i, j :| 0 <= i < j < |s.hands| && s.hands[i].itemId == s.hands[j].itemId != "" &&
                  s.hands[i].status == PENDING && s.hands[j].status == PENDING;
      var id := s.hands[j].itemId;
      var confirm := Confirm(id, "confirmed", "", "");
      assert Apply(s, confirm, now).Done?;
      var first, settled := PendingFor(s.hands, id), SettleFor(s.hands, id, "approved", "");
      assert first.value <= i && settled[j] == s.hands[j] && Awaits(settled[j], id);
      assert "confirmed" != READ_BACK;
      ApplyPointingIff(s, confirm, now);
      assert !Pointed(Apply(s, Confirm(id, "confirmed", "", ""), now));
    }
  }

  ghost predicate Pointed(r: Outcome) {
    r.Done? ==> Pointing(r.state.items, r.state.hands)
  }

  // ---- Whole runs ----------------------------------------------------------------------

  ghost predicate Sound(s: State) {
    UniqueIds(s) && StampedWhenVerified(s) && Linked(s.items, s.hands)
  }

  /** The command line's choices, and hands raised without an item link. */
  predicate Tame(op: Op) {
    match op
    case Confirm(_, verdict, _, _) => Verified(verdict) || verdict == "rejected"
    case Raise(_, link) => link == ""
    case Resolve(_, outcome) => outcome == "approved" || outcome == "dismissed"
    case _ => true
  }

  /** Operations in turn, each at its own time; a failed one leaves the session as it was. */
  ghost function Run(s: State, ops: seq<(Op, string)>): State {
    if ops == [] then s
    else
      var before := Run(s, ops[..|ops| - 1]);
      var r := Apply(before, ops[|ops| - 1].0, ops[|ops| - 1].1);
      if r.Done? then r.state else before
  }

  lemma TameIsPermitted(s: State, op: Op)
    requires Tame(op)
    ensures Permitted(s, op)
  {
    assert PENDING != "approved" && PENDING != "dismissed";
  }

  lemma StepKeepsSound(s: State, op: Op, now: string)
    requires Sound(s) && now != "" && Permitted(s, op) && Apply(s, op, now).Done?
    ensures Sound(Apply(s, op, now).state) && Extends(s, Apply(s, op, now).state)
  {
    ApplyKeepsUniqueIds(s, op, now);
    ApplyKeepsStamps(s, op, now);
    ApplyLinkedIff(s, op, now);
    ApplyExtends(s, op, now);
  }

  /** Over every sequence of operations, whatever their order and whichever fail. */
  lemma {:induction false} RunKeepsSound(s: State, ops: seq<(Op, string)>)
    requires Sound(s) && forall i :: 0 <= i < |ops| ==> Tame(ops[i].0) && ops[i].1 != ""
    ensures Sound(Run(s, ops)) && Extends(s, Run(s, ops))
  {
    if ops != [] {
      var front, last := ops[..|ops| - 1], ops[|ops| - 1];
      RunKeepsSound(s, front);
      var before := Run(s, front);
      TameIsPermitted(before, last.0);
      if Apply(before, last.0, last.1).Done? {
        StepKeepsSound(before, last.0, last.1);
      }
    }
  }

  lemma IngestedIsApplied(s: State, e: LiveEvent, now: string)
    requires Ingested(s, e, now).Done?
    ensures OpOf(e).Some? && Ingested(s, e, now) == Apply(s, OpOf(e).value, now)
  {
  }

  predicate TameEvent(e: LiveEvent) {
    OpOf(e).Some? ==> Tame(OpOf(e).value)
  }

  /** So does every batch of events that goes through. */
  lemma {:induction false} BatchKeepsSound(s: State, events: seq<(LiveEvent, string)>)
    requires Sound(s) && IngestedAll(s, events).Done?
    requires forall i :: 0 <= i < |events| ==> TameEvent(events[i].0) && events[i].1 != ""
    ensures Sound(IngestedAll(s, events).state) && Extends(s, IngestedAll(s, events).state)
  {
    if events != [] {
      var front, last := events[..|events| - 1], events[|events| - 1];
      BatchKeepsSound(s, front);
      var before := IngestedAll(s, front).state;
      IngestedIsApplied(before, last.0, last.1);
      TameIsPermitted(before, OpOf(last.0).value);
      StepKeepsSound(before, OpOf(last.0).value, last.1);
    }
  }

  const BLANK := State([], [], [], [], "prompted")

  lemma BlankIsSound()
    ensures Sound(BLANK)
  {
  }

  lemma ProposeFirst(op: Op, now: string)
    requires op.Propose? && op.needsReadBack
    ensures var r := Apply(BLANK, op, now);
            && r.Done? && |r.state.items| == 1 && r.state.items[0].id == IdOf("item", 1)
            && |r.state.hands| == 1 && Awaits(r.state.hands[0], IdOf("item", 1))
  {
    assert ItemIds([]) == [];
    NumberedListContinues([], "item");
  }

  lemma RaiseSecond(s: State, reason: string, id: string, now: string)
    requires |s.hands| == 1 && Awaits(s.hands[0], id)
    ensures var r := Apply(s, Raise(reason, id), now);
            && r.Done? && r.state.items == s.items
            && |r.state.hands| == 2 && Awaits(r.state.hands[0], id) && Awaits(r.state.hands[1], id)
  {
  }

  lemma ConfirmSettlesOne(s: State, id: string, now: string)
    requires |s.items| == 1 && s.items[0].id == id
    requires |s.hands| == 2 && Awaits(s.hands[0], id) && Awaits(s.hands[1], id)
    ensures var r := Apply(s, Confirm(id, "confirmed", "", ""), now);
            && r.Done? && |r.state.items| == 1 && r.state.items[0].id == id && r.state.items[0].status == "confirmed"
            && |r.state.hands| == 2 && Awaits(r.state.hands[1], id)
  {
    assert ItemIds(s.items) == [id];
    assert PendingFor(s.hands, id) == Some(0);
  }

  lemma RunThree(s: State, a: (Op, string), b: (Op, string), c: (Op, string), s1: State, s2: State, s3: State)
    requires Apply(s, a.0, a.1) == Done(s1) && Apply(s1, b.0, b.1) == Done(s2) && Apply(s2, c.0, c.1) == Done(s3)
    ensures Run(s, [a, b, c]) == s3
  {
    assert [a, b, c][..2] == [a, b] && [a, b][..1] == [a] && [a][..0] == [];
    assert Run(s, [a]) == s1;
    assert Run(s, [a, b]) == s2;
  }

  /** From a sound session, a second hand linked to an item outlives the item's confirmation: without the guard on
      links the session is no longer sound. */
  lemma LinkedRaiseOutlivesConfirmation(propose: Op, reason: string, now: string)
    requires propose.Propose? && propose.needsReadBack
    ensures var id := IdOf("item", 1);
            var t := Run(BLANK, [(propose, now), (Raise(reason, id), now), (Confirm(id, "confirmed", "", ""), now)]);
            && |t.items| == 1 && t.items[0].id == id && t.items[0].status == "confirmed"
            && |t.hands| == 2 && Awaits(t.hands[1], id)
            && Sound(BLANK) && !Sound(t)
  {
    BlankIsSound();
    var id := IdOf("item", 1);
    var raise, confirm := Raise(reason, id), Confirm(id, "confirmed", "", "");
    ProposeFirst(propose, now);
    var s1 := Apply(BLANK, propose, now).state;
    RaiseSecond(s1, reason, id, now);
    var s2 := Apply(s1, raise, now).state;
    ConfirmSettlesOne(s2, id, now);
    RunThree(BLANK, (propose, now), (raise, now), (confirm, now), s1, s2, Apply(s2, confirm, now).state);
  }
}
