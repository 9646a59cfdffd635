/** The live-plan session machine (src/canon_systems/live_plan.py). */
module LivePlan {
  import opened Text
  import opened Sorting
  import opened LivePlanIds

  // ---- Entities -------------------------------------------------------------------

  datatype Segment = Segment(id: string, speaker: string, text: string, source: string, timestamp: string)

  datatype Reference = Reference(
    id: string, kind: string, title: string, path: string, uri: string, summary: string,
    shared: bool, chat: string, addedAt: string)

  datatype Item = Item(
    id: string, kind: string, title: string, content: string, status: string, evidence: seq<string>,
    createdAt: string, verifiedAt: string)

  datatype Hand = Hand(
    id: string, reason: string, itemId: string, status: string, createdAt: string, resolvedAt: string)

  /** The lists a session carries, and its participation mode. */
  datatype State = State(
    segments: seq<Segment>, references: seq<Reference>, items: seq<Item>, hands: seq<Hand>, mode: string)

  const PENDING := "pending"
  const READ_BACK := "read_back_pending"

  predicate Verified(status: string) {
    status == "confirmed" || status == "amended"
  }

  function SegmentId(x: Segment): string { x.id }
  function SegmentIds(s: seq<Segment>): seq<string> { Map(s, SegmentId) }
  function ReferenceId(x: Reference): string { x.id }
  function ReferenceIds(s: seq<Reference>): seq<string> { Map(s, ReferenceId) }
  function ItemId(x: Item): string { x.id }
  function ItemIds(s: seq<Item>): seq<string> { Map(s, ItemId) }
  function HandId(x: Hand): string { x.id }
  function HandIds(s: seq<Hand>): seq<string> { Map(s, HandId) }

  // ---- Operations -------------------------------------------------------------------

  /** What an event or a command asks of the session, its texts already cleaned. */
  datatype Op =
    | AddSegment(speaker: string, text: string, source: string, timestamp: string)
    | AddReference(refKind: string, refTitle: string, path: string, uri: string, summary: string, shared: bool,
                   chat: string)
    | Propose(itemKind: string, itemTitle: string, body: string, evidence: seq<string>, needsReadBack: bool)
    | Confirm(itemId: string, verdict: string, newTitle: string, newBody: string)
    | Raise(reason: string, link: string)
    | Resolve(handId: string, outcome: string)
    | SetMode(mode: string)

  datatype Error =
    | ItemNotFound(item: string) | HandNotFound(hand: string)
    | UnsupportedType(kind: string) | BadPayload(kind: string)

  datatype Outcome = Done(state: State) | Failed(error: Error)

  /** The first index of `key` in a list of ids. */
  function IndexOf(ids: seq<string>, key: string): (r: Option<nat>)
    ensures r.Some? ==> r.value < |ids| && ids[r.value] == key && forall j :: 0 <= j < r.value ==> ids[j] != key
    ensures r.None? ==> key !in ids
  {
    if ids == [] then None
    else if ids[0] == key then Some(0)
    else
      var rest := IndexOf(ids[1..], key);
      if rest.None? then None else Some(rest.value + 1)
  }

  predicate Awaits(h: Hand, item: string) {
    h.itemId == item && h.status == PENDING
  }

  /** The first pending hand linked to an item. */
  function PendingFor(hands: seq<Hand>, item: string): (r: Option<nat>)
    ensures r.Some? ==> r.value < |hands| && Awaits(hands[r.value], item)
    ensures r.Some? ==> forall j :: 0 <= j < r.value ==> !Awaits(hands[j], item)
    ensures r.None? ==> forall j :: 0 <= j < |hands| ==> !Awaits(hands[j], item)
  {
    if hands == [] then None
    else if Awaits(hands[0], item) then Some(0)
    else
      var rest := PendingFor(hands[1..], item);
      if rest.None? then None else Some(rest.value + 1)
  }

  ghost function NewHand(hands: seq<Hand>, reason: string, item: string, now: string): Hand {
    Hand(NextId(HandIds(hands), "hand"), reason, item, PENDING, now, "")
  }

  ghost function NewItem(items: seq<Item>, op: Op, now: string): Item
    requires op.Propose?
  {
    Item(NextId(ItemIds(items), "item"), op.itemKind, op.itemTitle, op.body,
         if op.needsReadBack then READ_BACK else "draft", op.evidence, now, "")
  }

  /** The reason of the hand raised for an item. */
  function ReadBackReason(item: Item): string {
    "Read back and confirm: " +
    (if Strip(item.title) != "" then Strip(item.title)
     else if Strip(item.id) != "" then Strip(item.id)
     else "pending item")
  }

  function Confirmed(x: Item, op: Op, now: string): Item
    requires op.Confirm?
  {
    x.(status := op.verdict, title := if op.newTitle != "" then op.newTitle else x.title,
       content := if op.newBody != "" then op.newBody else x.content,
       verifiedAt := if Verified(op.verdict) then now else "")
  }

  function Settled(h: Hand, outcome: string, now: string): Hand {
    h.(status := outcome, resolvedAt := now)
  }

  /** `_resolve_pending_hand_for_item`. */
  function SettleFor(hands: seq<Hand>, item: string, outcome: string, now: string): seq<Hand> {
    var i := PendingFor(hands, item);
    if i.None? then hands else hands[i.value := Settled(hands[i.value], outcome, now)]
  }

  /** The session after one operation at time `now`. */
  ghost function Apply(s: State, op: Op, now: string): Outcome {
    match op
    case AddSegment(speaker, text, source, timestamp) =>
      Done(s.(segments := s.segments + [Segment(NextId(SegmentIds(s.segments), "seg"), speaker, text, source,
                                                if timestamp != "" then timestamp else now)]))
    case AddReference(kind, title, path, uri, summary, shared, chat) =>
      Done(s.(references := s.references + [Reference(NextId(ReferenceIds(s.references), "ref"), kind, title, path, uri,
                                                      summary, shared, chat, now)]))
    case Propose(_, _, _, _, readBack) =>
      var item := NewItem(s.items, op, now);
      Done(s.(items := s.items + [item],
              hands := if readBack then s.hands + [NewHand(s.hands, ReadBackReason(item), item.id, now)] else s.hands))
    case Confirm(id, verdict, _, _) =>
      var i := IndexOf(ItemIds(s.items), id);
      if i.None? then Failed(ItemNotFound(id))
      else
        Done(s.(items := s.items[i.value := Confirmed(s.items[i.value], op, now)],
                hands := SettleFor(s.hands, id, if Verified(verdict) then "approved" else "dismissed", now)))
    case Raise(reason, link) => Done(s.(hands := s.hands + [NewHand(s.hands, reason, link, now)]))
    case Resolve(id, outcome) =>
      var i := IndexOf(HandIds(s.hands), id);
      if i.None? then Failed(HandNotFound(id))
      else Done(s.(hands := s.hands[i.value := Settled(s.hands[i.value], outcome, now)]))
    case SetMode(mode) => Done(s.(mode := mode))
  }

  // ---- Events -------------------------------------------------------------------------

  /** The payload of an event: its texts, its evidence list and its flags. */
  datatype Payload = Payload(texts: map<string, string>, evidence: seq<string>, flags: map<string, bool>)

  /** `payload` is None when it is not an object. */
  datatype LiveEvent = LiveEvent(kind: string, payload: Option<Payload>)

  /** `str(payload.get(key, "")).strip() or default`. */
  function Field(p: Payload, key: string, default: string): string {
    var text := if key in p.texts then Strip(p.texts[key]) else "";
    if text != "" then text else default
  }

  function Flag(p: Payload, key: string, default: bool): bool {
    if key in p.flags then p.flags[key] else default
  }

  function Cleaned(p: Payload, kind: string): Option<Op> {
    match kind
    case "transcript.segment" =>
      Some(AddSegment(Field(p, "speaker", "unknown"), Field(p, "text", ""), Field(p, "source", "meeting-pane"),
                      Field(p, "timestamp", "")))
    case "reference.add" =>
      Some(AddReference(Field(p, "type", "file"), Field(p, "title", "Untitled reference"), Field(p, "path", ""),
                        Field(p, "uri", ""), Field(p, "summary", ""), Flag(p, "shared_to_meeting", false),
                        Field(p, "meeting_chat_status", "not_requested")))
    case "item.propose" =>
      Some(Propose(Field(p, "item_type", Field(p, "type", "task")), Field(p, "title", "Untitled item"),
                   Field(p, "content", ""), Filter(Map(p.evidence, Strip), (t: string) => t != ""),
                   Flag(p, "requires_confirmation", true)))
    case "item.confirm" =>
      Some(Confirm(Field(p, "item_id", ""), Field(p, "status", ""), Field(p, "title", ""), Field(p, "content", "")))
    case "hand.raise" => Some(Raise(Field(p, "reason", "Clarification requested"), Field(p, "item_id", "")))
    case "hand.resolve" => Some(Resolve(Field(p, "hand_raise_id", ""), Field(p, "status", "")))
    case "mode.set" => Some(SetMode(Field(p, "mode", "")))
    case _ => None
  }

  /** The operation an event stands for, if its payload and type are supported. */
  function OpOf(e: LiveEvent): Option<Op> {
    if e.payload.None? then None else Cleaned(e.payload.value, Strip(e.kind))
  }

  ghost function Ingested(s: State, e: LiveEvent, now: string): Outcome {
    var kind := Strip(e.kind);
    if e.payload.None? then Failed(BadPayload(kind))
    else
      var op := Cleaned(e.payload.value, kind);
      if op.None? then Failed(UnsupportedType(kind)) else Apply(s, op.value, now)
  }

  /** A batch, each event at its own time, stopping at the first failure. */
  ghost function IngestedAll(s: State, events: seq<(LiveEvent, string)>): Outcome {
    if events == [] then Done(s)
    else
      var before := IngestedAll(s, events[..|events| - 1]);
      if before.Failed? then before
      else Ingested(before.state, events[|events| - 1].0, events[|events| - 1].1)
  }

  // ---- The session object ----------------------------------------------------------------

  class Session {
    var segments: seq<Segment>
    var references: seq<Reference>
    var items: seq<Item>
    var hands: seq<Hand>
    var mode: string

    function View(): State
      reads this
    {
      State(segments, references, items, hands, mode)
    }

    constructor (start: State)
      ensures View() == start
    {
      segments, references, items, hands, mode :=
        start.segments, start.references, start.items, start.hands, start.mode;
    }

    method AppendSegment(op: Op, now: string)
      requires op.AddSegment?
      modifies this
      ensures Done(View()) == Apply(old(View()), op, now)
    {
      var id := FindNextId(SegmentIds(segments), "seg");
      segments := segments + [Segment(id, op.speaker, op.text, op.source,
                                      if op.timestamp != "" then op.timestamp else now)];
    }

    method AppendReference(op: Op, now: string)
      requires op.AddReference?
      modifies this
      ensures Done(View()) == Apply(old(View()), op, now)
    {
      var id := FindNextId(ReferenceIds(references), "ref");
      references := references + [Reference(id, op.refKind, op.refTitle, op.path, op.uri, op.summary, op.shared,
                                            op.chat, now)];
    }

    method RaiseHand(reason: string, item: string, now: string)
      modifies this
      ensures View() == old(View()).(hands := old(hands) + [NewHand(old(hands), reason, item, now)])
    {
      var id := FindNextId(HandIds(hands), "hand");
      hands := hands + [Hand(id, reason, item, PENDING, now, "")];
    }

    method ProposeItem(op: Op, now: string)
      requires op.Propose?
      modifies this
      ensures Done(View()) == Apply(old(View()), op, now)
    {
      var id := FindNextId(ItemIds(items), "item");
      var item := Item(id, op.itemKind, op.itemTitle, op.body,
                       if op.needsReadBack then READ_BACK else "draft", op.evidence, now, "");
      items := items + [item];
      if op.needsReadBack {
        RaiseHand(ReadBackReason(item), item.id, now);
      }
    }

    /** The search loop over a list of ids. */
    static method Find(ids: seq<string>, key: string) returns (r: Option<nat>)
      ensures r == IndexOf(ids, key)
    {
      for i := 0 to |ids|
        invariant key !in ids[..i]
      {
        if ids[i] == key {
          r := Some(i);
          FirstIndexUnique(ids, key, i);
          return;
        }
      }
      r := None;
    }

    /** The loop of `_resolve_pending_hand_for_item`. */
    method SettlePending(item: string, outcome: string, now: string)
      modifies this
      ensures View() == old(View()).(hands := SettleFor(old(hands), item, outcome, now))
    {
      for i := 0 to |hands|
        invariant hands == old(hands) && View() == old(View())
        invariant forall j :: 0 <= j < i ==> !Awaits(hands[j], item)
      {
        if Awaits(hands[i], item) {
          assert PendingFor(hands, item) == Some(i);
          hands := hands[i := Settled(hands[i], outcome, now)];
          return;
        }
      }
    }

    method ConfirmItem(op: Op, now: string) returns (error: Option<Error>)
      requires op.Confirm?
      modifies this
      ensures Apply(old(View()), op, now) == if error.None? then Done(View()) else Failed(error.value)
      ensures error.Some? ==> View() == old(View())
    {
      var i := Find(ItemIds(items), op.itemId);
      if i.None? {
        return Some(ItemNotFound(op.itemId));
      }
      items := items[i.value := Confirmed(items[i.value], op, now)];
      SettlePending(op.itemId, if Verified(op.verdict) then "approved" else "dismissed", now);
      error := None;
    }

    method ResolveHand(op: Op, now: string) returns (error: Option<Error>)
      requires op.Resolve?
      modifies this
      ensures Apply(old(View()), op, now) == if error.None? then Done(View()) else Failed(error.value)
      ensures error.Some? ==> View() == old(View())
    {
      var i := Find(HandIds(hands), op.handId);
      if i.None? {
        return Some(HandNotFound(op.handId));
      }
      hands := hands[i.value := Settled(hands[i.value], op.outcome, now)];
      error := None;
    }

    method Perform(op: Op, now: string) returns (error: Option<Error>)
      modifies this
      ensures Apply(old(View()), op, now) == if error.None? then Done(View()) else Failed(error.value)
      ensures error.Some? ==> View() == old(View())
    {
      error := None;
      match op {
        case AddSegment(_, _, _, _) => AppendSegment(op, now);
        case AddReference(_, _, _, _, _, _, _) => AppendReference(op, now);
        case Propose(_, _, _, _, _) => ProposeItem(op, now);
        case Confirm(_, _, _, _) => error := ConfirmItem(op, now);
        case Raise(reason, link) => RaiseHand(reason, link, now);
        case Resolve(_, _) => error := ResolveHand(op, now);
        case SetMode(m) => mode := m;
      }
    }

    /** `_ingest_live_event`: a failed event leaves the session as it was. */
    method Ingest(e: LiveEvent, now: string) returns (error: Option<Error>)
      modifies this
      ensures Ingested(old(View()), e, now) == if error.None? then Done(View()) else Failed(error.value)
      ensures error.Some? ==> View() == old(View())
    {
      var kind := Strip(e.kind);
      if e.payload.None? {
        return Some(BadPayload(kind));
      }
      var op := Cleaned(e.payload.value, kind);
      if op.None? {
        return Some(UnsupportedType(kind));
      }
      error := Perform(op.value, now);
    }
  }

  /** `_cmd_ingest_events`: the stored session changes only when every event of the batch succeeds. */
  method IngestBatch(stored: State, events: seq<(LiveEvent, string)>) returns (written: State, error: Option<Error>)
    ensures IngestedAll(stored, events) == if error.None? then Done(written) else Failed(error.value)
    ensures error.Some? ==> written == stored
  {
    var session := new Session(stored);
    for i := 0 to |events|
      invariant fresh(session)
      invariant IngestedAll(stored, events[..i]) == Done(session.View())
    {
      assert events[..i + 1][..i] == events[..i];
      error := session.Ingest(events[i].0, events[i].1);
      if error.Some? {
        FailureStays(stored, events, i + 1);
        return stored, error;
      }
    }
    assert events[..|events|] == events;
    written, error := session.View(), None;
  }

  /** Once an event failed, the batch has failed with its error. */
  lemma {:induction false} FailureStays(s: State, events: seq<(LiveEvent, string)>, n: nat)
    requires n <= |events| && IngestedAll(s, events[..n]).Failed?
    ensures IngestedAll(s, events) == IngestedAll(s, events[..n])
  {
    if n == |events| {
      assert events[..n] == events;
    } else {
      assert events[..|events| - 1][..n] == events[..n];
      FailureStays(s, events[..|events| - 1], n);
    }
  }

  lemma {:induction false} FirstIndexUnique(ids: seq<string>, key: string, i: nat)
    requires i < |ids| && ids[i] == key && key !in ids[..i]
    ensures IndexOf(ids, key) == Some(i)
  {
    if i > 0 {
      assert ids[..i][0] == ids[0];
      assert ids[1..][..i - 1] == ids[..i][1..];
      FirstIndexUnique(ids[1..], key, i - 1);
    }
  }
}
