/** What each live-plan event does to the session, from its payload (src/canon_systems/live_plan.py). */
module LivePlanMeaning {
  import opened Text
  import opened Sorting
  import opened LivePlanIds
  import opened LivePlan

  // ---- Payloads -----------------------------------------------------------------------------

  /** The payload has a text under the key that is not blank. */
  predicate Given(p: Payload, key: string) {
    key in p.texts && Strip(p.texts[key]) != ""
  }

  /** The value is the trimmed text under the key, or the default when that is absent or blank. */
  predicate Says(p: Payload, key: string, default: string, value: string) {
    value == if Given(p, key) then Strip(p.texts[key]) else default
  }

  predicate Flagged(p: Payload, key: string, default: bool, value: bool) {
    if key in p.flags then value == p.flags[key] else value == default
  }

  /** The trimmed texts that are not blank, in order. */
  function Worded(texts: seq<string>): seq<string> {
    if texts == [] then []
    else if Strip(texts[0]) == "" then Worded(texts[1..])
    else [Strip(texts[0])] + Worded(texts[1..])
  }

  lemma {:induction false} EvidenceReads(texts: seq<string>)
    ensures Filter(Map(texts, Strip), (t: string) => t != "") == Worded(texts)
  {
    if texts != [] {
      EvidenceReads(texts[1..]);
      assert Map(texts, Strip) == [Strip(texts[0])] + Map(texts[1..], Strip);
    }
  }

  predicate Of(e: LiveEvent, p: Payload, kind: string) {
    e.payload == Some(p) && Strip(e.kind) == kind
  }

  // ---- Additions ----------------------------------------------------------------------------

  ghost predicate SegmentSaid(s: State, p: Payload, now: string, x: Segment) {
    && x.id == NextId(SegmentIds(s.segments), "seg")
    && Says(p, "speaker", "unknown", x.speaker) && Says(p, "text", "", x.text)
    && Says(p, "source", "meeting-pane", x.source) && Says(p, "timestamp", now, x.timestamp)
  }

  /** A transcript segment is appended, stamped now unless the payload says when, and nothing else changes. */
  lemma SegmentReads(s: State, e: LiveEvent, p: Payload, now: string) returns (x: Segment)
    requires Of(e, p, "transcript.segment")
    ensures SegmentSaid(s, p, now, x)
    ensures Ingested(s, e, now) == Done(State(s.segments + [x], s.references, s.items, s.hands, s.mode))
  {
    x := Ingested(s, e, now).state.segments[|s.segments|];
  }

  ghost predicate ReferenceSaid(s: State, p: Payload, now: string, x: Reference) {
    && x.id == NextId(ReferenceIds(s.references), "ref") && x.addedAt == now
    && Says(p, "type", "file", x.kind) && Says(p, "title", "Untitled reference", x.title)
    && Says(p, "path", "", x.path) && Says(p, "uri", "", x.uri) && Says(p, "summary", "", x.summary)
    && Flagged(p, "shared_to_meeting", false, x.shared)
    && Says(p, "meeting_chat_status", "not_requested", x.chat)
  }

  lemma ReferenceReads(s: State, e: LiveEvent, p: Payload, now: string) returns (x: Reference)
    requires Of(e, p, "reference.add")
    ensures ReferenceSaid(s, p, now, x)
    ensures Ingested(s, e, now) == Done(State(s.segments, s.references + [x], s.items, s.hands, s.mode))
  {
    x := Ingested(s, e, now).state.references[|s.references|];
  }

  /** A new hand: pending since now. */
  ghost predicate HandUp(s: State, now: string, h: Hand, reason: string, item: string) {
    h == Hand(NextId(HandIds(s.hands), "hand"), reason, item, "pending", now, "")
  }

  ghost predicate ItemSaid(s: State, p: Payload, now: string, readBack: bool, x: Item) {
    && x.id == NextId(ItemIds(s.items), "item") && x.createdAt == now && x.verifiedAt == ""
    && (if Given(p, "item_type") then x.kind == Strip(p.texts["item_type"]) else Says(p, "type", "task", x.kind))
    && Says(p, "title", "Untitled item", x.title) && Says(p, "content", "", x.content)
    && x.evidence == Worded(p.evidence)
    && x.status == if readBack then "read_back_pending" else "draft"
  }

  lemma TitleStays(p: Payload, title: string)
    requires Says(p, "title", "Untitled item", title)
    ensures Strip(title) == title && title != ""
  {
    if Given(p, "title") {
      StripIdempotent(p.texts["title"]);
    } else {
      StripIdempotent(title);
    }
  }

  /** A hand for an item asks for its title, its id when that is blank, or just for the item. */
  lemma ReasonReads(x: Item, asked: string)
    requires (Strip(x.title) != "" && asked == Strip(x.title))
          || (Strip(x.title) == "" && Strip(x.id) != "" && asked == Strip(x.id))
          || (Strip(x.title) == "" && Strip(x.id) == "" && asked == "pending item")
    ensures ReadBackReason(x) == "Read back and confirm: " + asked
  {
  }

  /** An item is appended, and a pending hand that asks to read it back unless the payload waives it. */
  lemma ItemReads(s: State, e: LiveEvent, p: Payload, now: string, readBack: bool) returns (x: Item, h: Hand)
    requires Of(e, p, "item.propose") && Flagged(p, "requires_confirmation", true, readBack)
    ensures ItemSaid(s, p, now, readBack, x)
    ensures HandUp(s, now, h, "Read back and confirm: " + x.title, x.id)
    ensures Ingested(s, e, now) == Done(State(s.segments, s.references, s.items + [x],
                                              if readBack then s.hands + [h] else s.hands, s.mode))
  {
    x := Ingested(s, e, now).state.items[|s.items|];
    h := NewHand(s.hands, "Read back and confirm: " + x.title, x.id, now);
    EvidenceReads(p.evidence);
    TitleStays(p, x.title);
  }

  lemma RaiseReads(s: State, e: LiveEvent, p: Payload, now: string, reason: string, item: string) returns (h: Hand)
    requires Of(e, p, "hand.raise")
    requires Says(p, "reason", "Clarification requested", reason) && Says(p, "item_id", "", item)
    ensures HandUp(s, now, h, reason, item)
    ensures Ingested(s, e, now) == Done(State(s.segments, s.references, s.items, s.hands + [h], s.mode))
  {
    h := NewHand(s.hands, reason, item, now);
  }

  lemma ModeReads(s: State, e: LiveEvent, p: Payload, now: string, mode: string)
    requires Of(e, p, "mode.set") && Says(p, "mode", "", mode)
    ensures Ingested(s, e, now) == Done(State(s.segments, s.references, s.items, s.hands, mode))
  {
  }

  // ---- Verdicts -----------------------------------------------------------------------------

  /** The first entry with the id. */
  ghost predicate FirstItem(items: seq<Item>, id: string, i: nat) {
    i < |items| && items[i].id == id && forall j :: 0 <= j < i ==> items[j].id != id
  }

  ghost predicate FirstHand(hands: seq<Hand>, id: string, i: nat) {
    i < |hands| && hands[i].id == id && forall j :: 0 <= j < i ==> hands[j].id != id
  }

  predicate WaitsOn(h: Hand, item: string) {
    h.itemId == item && h.status == "pending"
  }

  ghost predicate FirstWaiting(hands: seq<Hand>, item: string, i: nat) {
    i < |hands| && WaitsOn(hands[i], item) && forall j :: 0 <= j < i ==> !WaitsOn(hands[j], item)
  }

  ghost predicate NoneWaits(hands: seq<Hand>, item: string) {
    forall j :: 0 <= j < |hands| ==> !WaitsOn(hands[j], item)
  }

  /** The item takes the verdict and the given texts, with the time when the verdict verifies it. */
  predicate Judged(x: Item, p: Payload, verdict: string, now: string, y: Item) {
    && y.id == x.id && y.kind == x.kind && y.evidence == x.evidence && y.createdAt == x.createdAt
    && y.status == verdict && Says(p, "title", x.title, y.title) && Says(p, "content", x.content, y.content)
    && y.verifiedAt == if verdict == "confirmed" || verdict == "amended" then now else ""
  }

  /** The first hand that waits on the item is approved or dismissed; the others stay. */
  ghost predicate HandSettled(hands: seq<Hand>, item: string, verdict: string, now: string, after: seq<Hand>) {
    && |after| == |hands|
    && (NoneWaits(hands, item) ==> after == hands)
    && forall j :: 0 <= j < |hands| ==>
         after[j] == if FirstWaiting(hands, item, j)
                     then Hand(hands[j].id, hands[j].reason, hands[j].itemId,
                               if verdict == "confirmed" || verdict == "amended" then "approved" else "dismissed",
                               hands[j].createdAt, now)
                     else hands[j]
  }

  lemma SettleReads(hands: seq<Hand>, item: string, verdict: string, now: string)
    ensures HandSettled(hands, item, verdict, now,
                        SettleFor(hands, item, if Verified(verdict) then "approved" else "dismissed", now))
  {
    var i := PendingFor(hands, item);
    if i.Some? {
      assert FirstWaiting(hands, item, i.value);
    }
  }

  lemma {:induction false} IdsRead(items: seq<Item>, hands: seq<Hand>)
    ensures |ItemIds(items)| == |items| && forall j :: 0 <= j < |items| ==> ItemIds(items)[j] == items[j].id
    ensures |HandIds(hands)| == |hands| && forall j :: 0 <= j < |hands| ==> HandIds(hands)[j] == hands[j].id
  {
  }

  lemma FirstIndex(ids: seq<string>, id: string, i: nat)
    requires i < |ids| && ids[i] == id && forall j :: 0 <= j < i ==> ids[j] != id
    ensures IndexOf(ids, id) == Some(i)
  {
    FirstIndexUnique(ids, id, i);
  }

  lemma VerdictOp(e: LiveEvent, p: Payload, id: string, verdict: string) returns (op: Op)
    requires Of(e, p, "item.confirm") && Says(p, "item_id", "", id) && Says(p, "status", "", verdict)
    ensures op.Confirm? && op.itemId == id && op.verdict == verdict && OpOf(e) == Some(op)
    ensures forall x, now :: Judged(x, p, verdict, now, Confirmed(x, op, now))
  {
    op := Cleaned(p, "item.confirm").value;
  }

  /** A verdict changes the first item with the id and the first hand that waits on it, and nothing else. */
  lemma VerdictReads(s: State, e: LiveEvent, p: Payload, now: string, id: string, verdict: string, i: nat)
      returns (y: Item, hands: seq<Hand>)
    requires Of(e, p, "item.confirm") && Says(p, "item_id", "", id) && Says(p, "status", "", verdict)
    requires FirstItem(s.items, id, i)
    ensures Judged(s.items[i], p, verdict, now, y) && HandSettled(s.hands, id, verdict, now, hands)
    ensures Ingested(s, e, now) == Done(State(s.segments, s.references, s.items[i := y], hands, s.mode))
  {
    var op := VerdictOp(e, p, id, verdict);
    IdsRead(s.items, s.hands);
    FirstIndex(ItemIds(s.items), id, i);
    SettleReads(s.hands, id, verdict, now);
    y := Confirmed(s.items[i], op, now);
    hands := SettleFor(s.hands, id, if Verified(verdict) then "approved" else "dismissed", now);
    assert Ingested(s, e, now) == Apply(s, op, now);
  }

  /** It fails when no item has the id. */
  lemma VerdictMisses(s: State, e: LiveEvent, p: Payload, now: string, id: string)
    requires Of(e, p, "item.confirm") && Says(p, "item_id", "", id)
    requires forall j :: 0 <= j < |s.items| ==> s.items[j].id != id
    ensures Ingested(s, e, now) == Failed(ItemNotFound(id))
  {
    IdsRead(s.items, s.hands);
  }

  /** The first hand with the id takes the status, whether or not it was pending. */
  lemma ResolveReads(s: State, e: LiveEvent, p: Payload, now: string, id: string, status: string, i: nat)
    requires Of(e, p, "hand.resolve") && Says(p, "hand_raise_id", "", id) && Says(p, "status", "", status)
    requires FirstHand(s.hands, id, i)
    ensures var h := s.hands[i];
            Ingested(s, e, now) ==
            Done(State(s.segments, s.references, s.items,
                       s.hands[i := Hand(h.id, h.reason, h.itemId, status, h.createdAt, now)], s.mode))
  {
    IdsRead(s.items, s.hands);
    FirstIndex(HandIds(s.hands), id, i);
  }

  lemma ResolveMisses(s: State, e: LiveEvent, p: Payload, now: string, id: string)
    requires Of(e, p, "hand.resolve") && Says(p, "hand_raise_id", "", id)
    requires forall j :: 0 <= j < |s.hands| ==> s.hands[j].id != id
    ensures Ingested(s, e, now) == Failed(HandNotFound(id))
  {
    IdsRead(s.items, s.hands);
  }

  // ---- Events that fail, and batches --------------------------------------------------------

  predicate Supported(kind: string) {
    || kind == "transcript.segment" || kind == "reference.add" || kind == "item.propose" || kind == "item.confirm"
    || kind == "hand.raise" || kind == "hand.resolve" || kind == "mode.set"
  }

  /** An event without a payload object, or of no known type, fails. */
  lemma UnsupportedReads(s: State, e: LiveEvent, now: string)
    ensures e.payload.None? ==> Ingested(s, e, now) == Failed(BadPayload(Strip(e.kind)))
    ensures e.payload.Some? && !Supported(Strip(e.kind)) ==>
              Ingested(s, e, now) == Failed(UnsupportedType(Strip(e.kind)))
  {
  }

  /** The states between the events, each the outcome of ingesting one. */
  ghost predicate Chain(events: seq<(LiveEvent, string)>, states: seq<State>) {
    && |states| == |events| + 1
    && forall i :: 0 <= i < |events| ==> Ingested(states[i], events[i].0, events[i].1) == Done(states[i + 1])
  }

  /** The first event that fails ends the batch with its error. */
  ghost predicate StopsAt(events: seq<(LiveEvent, string)>, states: seq<State>, error: Error) {
    && 0 < |states| <= |events| && Chain(events[..|states| - 1], states)
    && Ingested(states[|states| - 1], events[|states| - 1].0, events[|states| - 1].1) == Failed(error)
  }

  lemma ChainSnoc(front: seq<(LiveEvent, string)>, last: (LiveEvent, string), states: seq<State>, u: State)
    requires Chain(front, states) && Ingested(states[|front|], last.0, last.1) == Done(u)
    ensures Chain(front + [last], states + [u])
  {
    var events, all := front + [last], states + [u];
    forall i | 0 <= i < |events| ensures Ingested(all[i], events[i].0, events[i].1) == Done(all[i + 1]) {
      if i < |front| {
        assert all[i] == states[i] && events[i] == front[i] && all[i + 1] == states[i + 1];
      }
    }
  }

  lemma StopStays(front: seq<(LiveEvent, string)>, last: (LiveEvent, string), states: seq<State>, error: Error)
    requires StopsAt(front, states, error)
    ensures StopsAt(front + [last], states, error)
  {
    assert (front + [last])[..|states| - 1] == front[..|states| - 1];
  }

  lemma StopHere(front: seq<(LiveEvent, string)>, last: (LiveEvent, string), states: seq<State>, error: Error)
    requires Chain(front, states) && Ingested(states[|front|], last.0, last.1) == Failed(error)
    ensures StopsAt(front + [last], states, error)
  {
    assert (front + [last])[..|states| - 1] == front;
  }

  /** Whether `outcome` is what these states between the events come to. */
  ghost predicate Ends(events: seq<(LiveEvent, string)>, states: seq<State>, outcome: Outcome) {
    match outcome
    case Done(t) => Chain(events, states) && states[|events|] == t
    case Failed(error) => StopsAt(events, states, error)
  }

  lemma EndsSnoc(front: seq<(LiveEvent, string)>, last: (LiveEvent, string), states: seq<State>, before: Outcome,
                 after: Outcome) returns (more: seq<State>)
    requires Ends(front, states, before)
    requires after == if before.Failed? then before else Ingested(before.state, last.0, last.1)
    ensures |more| >= |states| && more[..|states|] == states && Ends(front + [last], more, after)
  {
    more := states;
    if before.Failed? {
      StopStays(front, last, states, before.error);
    } else if after.Failed? {
      StopHere(front, last, states, after.error);
    } else {
      more := states + [after.state];
      ChainSnoc(front, last, states, after.state);
    }
  }

  /** A batch goes through the states between its events, to the end or to the first event that fails. */
  lemma {:induction false} BatchReads(s: State, events: seq<(LiveEvent, string)>) returns (states: seq<State>)
    ensures |states| > 0 && states[0] == s && Ends(events, states, IngestedAll(s, events))
  {
    states := [s];
    if events != [] {
      var front, last := events[..|events| - 1], events[|events| - 1];
      assert events == front + [last];
      states := BatchReads(s, front);
      states := EndsSnoc(front, last, states, IngestedAll(s, front), IngestedAll(s, events));
    }
  }
}
