/** The itinerary-creation page: the draft being edited (basic information, selected
    tags, an ordered list of timed events, three error messages), the operations that
    edit it, the submit-time validator and the half-hour time grid. */
module CreateItinerary {
  import opened Seqs
  import opened Text
  import opened TagToggle

  /** An event cannot be added once the list holds this many. */
  const MaxEvents: nat := 24

  const CapacityMessage := "Cannot add more than 24 events in a 24-hour period."
  const BasicInfoMessage := "Please fill out all basic info fields."
  const TagMessage := "Please select at least 3 tags."
  const NoCompleteEventMessage := "At least one complete event is required."
  const IncompleteEventMessage := "Please complete all fields for incomplete events or delete them."

  /** One entry of the event list; it is identified only by its position. */
  datatype Event = Event(ampm: string, time: string, location: string, description: string)

  /** The event the list starts with and that "Add Event" appends. */
  const Sentinel := Event("AM", "1:00", "", "")

  /** The form controls of an event, named as in the page's `name` attributes. */
  datatype EventField = AmPm | Time | Location | Description

  function EventValue(e: Event, f: EventField): string {
    match f
    case AmPm => e.ampm
    case Time => e.time
    case Location => e.location
    case Description => e.description
  }

  /** `event[name] = value` */
  function WithEventValue(e: Event, f: EventField, v: string): (r: Event)
    ensures EventValue(r, f) == v
    ensures forall g :: g != f ==> EventValue(r, g) == EventValue(e, g)
  {
    match f
    case AmPm => e.(ampm := v)
    case Time => e.(time := v)
    case Location => e.(location := v)
    case Description => e.(description := v)
  }

  /** The four basic-information inputs; every value is the input's string. */
  datatype BasicInfo = BasicInfo(name: string, location: string, description: string, estimatedCost: string)

  const EmptyBasicInfo := BasicInfo("", "", "", "")

  /** The basic-information inputs, by their `name` attributes. */
  datatype BasicField = Name | BasicLocation | BasicDescription | EstimatedCost

  function BasicValue(d: BasicInfo, f: BasicField): string {
    match f
    case Name => d.name
    case BasicLocation => d.location
    case BasicDescription => d.description
    case EstimatedCost => d.estimatedCost
  }

  /** `{ ...itineraryDetails, [name]: value }` */
  function WithBasicValue(d: BasicInfo, f: BasicField, v: string): (r: BasicInfo)
    ensures BasicValue(r, f) == v
    ensures forall g :: g != f ==> BasicValue(r, g) == BasicValue(d, g)
  {
    match f
    case Name => d.(name := v)
    case BasicLocation => d.(location := v)
    case BasicDescription => d.(description := v)
    case EstimatedCost => d.(estimatedCost := v)
  }

  // ---------------------------------------------------------------------------
  // Validator

  /** What the validator reads. */
  datatype Snapshot = Snapshot(details: BasicInfo, tags: seq<string>, events: seq<Event>)

  /** The three messages the page shows; "" means no error. */
  datatype Messages = Messages(basic: string, tag: string, event: string)

  /** `name && location && description && estimatedCost`: a string is truthy when non-empty. */
  predicate BasicInfoFilled(d: BasicInfo) {
    d.name != "" && d.location != "" && d.description != "" && d.estimatedCost != ""
  }

  predicate Blank(s: string) {
    Trim(s) == ""
  }

  /** Kept for validation: description or location is not blank. */
  predicate IsRetained(e: Event) {
    !Blank(e.description) || !Blank(e.location)
  }

  /** `filteredEvents`: the events the submit handler inspects, in their order. */
  function Retained(events: seq<Event>): seq<Event> {
    Filter(events, IsRetained)
  }

  /** The completeness test of the first event pass. */
  predicate IsComplete(e: Event) {
    !Blank(e.description) && !Blank(e.location) && e.time != "" && e.ampm != ""
  }

  /** The test of the second event pass: exactly one of description and location is blank. */
  predicate IsHalfFilled(e: Event) {
    (Blank(e.description) && !Blank(e.location)) || (!Blank(e.description) && Blank(e.location))
  }

  predicate HasComplete(events: seq<Event>) {
    exists i :: 0 <= i < |events| && IsComplete(events[i])
  }

  predicate HasHalfFilled(events: seq<Event>) {
    exists i :: 0 <= i < |events| && IsHalfFilled(events[i])
  }

  /** The messages a submit leaves behind. The event message of the completeness pass
      is always overwritten by the second pass, so only the half-filled test decides it
      (see `Draft.HandleSubmit`, which performs both writes). */
  function Validate(s: Snapshot): Messages {
    var retained := Retained(s.events);
    Messages(
      if BasicInfoFilled(s.details) then "" else BasicInfoMessage,
      if |s.tags| >= 3 then "" else TagMessage,
      if HasHalfFilled(retained) then IncompleteEventMessage else "")
  }

  /** The page has no such flag; a draft counts as submittable when no message is shown. */
  predicate IsSubmittable(m: Messages) {
    m.basic == "" && m.tag == "" && m.event == ""
  }

  /** An event with exactly one blank field is always retained, so the filter does not
      change whether one exists. */
  lemma {:induction false} HalfFilledRetained(events: seq<Event>)
    ensures HasHalfFilled(Retained(events)) <==> HasHalfFilled(events)
  {
    var r := Retained(events);
    if HasHalfFilled(events) {
      var i :| 0 <= i < |events| && IsHalfFilled(events[i]);
      FilterMembers(events, IsRetained, events[i]);
      var j :| 0 <= j < |r| && r[j] == events[i];
    }
    if HasHalfFilled(r) {
      var j :| 0 <= j < |r| && IsHalfFilled(r[j]);
      FilterMembers(events, IsRetained, r[j]);
    }
  }

  /** The basic-info message is empty exactly when all four inputs are non-empty, and is
      the basic-info error otherwise. */
  lemma BasicMessageIff(s: Snapshot)
    ensures Validate(s).basic == "" <==> BasicInfoFilled(s.details)
    ensures Validate(s).basic == "" || Validate(s).basic == BasicInfoMessage
  {
  }

  /** The tag message is empty exactly when at least three tags are selected. */
  lemma TagMessageIff(s: Snapshot)
    ensures Validate(s).tag == "" <==> |s.tags| >= 3
    ensures Validate(s).tag == "" || Validate(s).tag == TagMessage
  {
  }

  /** The event message is the incomplete-event error exactly when some event of the
      draft has exactly one of description and location blank, and empty otherwise; in
      particular it is never the "at least one complete event" message. */
  lemma EventMessageIff(s: Snapshot)
    ensures Validate(s).event == IncompleteEventMessage <==> HasHalfFilled(s.events)
    ensures Validate(s).event == "" <==> !HasHalfFilled(s.events)
    ensures Validate(s).event != NoCompleteEventMessage
  {
    HalfFilledRetained(s.events);
  }

  /** The sentinel has a blank description and location, so validation drops it. */
  lemma SentinelNotRetained()
    ensures !IsRetained(Sentinel) && !IsHalfFilled(Sentinel)
  {
    TrimUnchanged("");
    assert Blank(Sentinel.description) && Blank(Sentinel.location);
  }

  /** A draft whose events are all untouched sentinels gets no event error, although it
      has no complete event. */
  lemma SentinelsOnly(s: Snapshot)
    requires forall i :: 0 <= i < |s.events| ==> s.events[i] == Sentinel
    ensures Retained(s.events) == [] && !HasComplete(Retained(s.events))
    ensures Validate(s).event == ""
  {
    SentinelNotRetained();
    var r := Retained(s.events);
    if r != [] {
      FilterMembers(s.events, IsRetained, r[0]);
      assert false;
    }
  }

  /** Submittable exactly when the basic info is filled, three tags are selected and no
      event is half filled. */
  lemma SubmittableIff(s: Snapshot)
    ensures IsSubmittable(Validate(s)) <==>
      BasicInfoFilled(s.details) && |s.tags| >= 3 && !HasHalfFilled(s.events)
  {
    EventMessageIff(s);
  }

  /** Empty basic info, two tags and one complete event: both the basic-info and the tag
      message are set, the event message is empty, and the draft is not submittable. */
  lemma ScenarioLunch()
    ensures var m := Validate(Snapshot(EmptyBasicInfo, ["a", "b"], [Event("PM", "3:00", "Cafe", "Lunch")]));
      m == Messages(BasicInfoMessage, TagMessage, "") && !IsSubmittable(m)
  {
    var e := Event("PM", "3:00", "Cafe", "Lunch");
    TrimUnchanged("Cafe");
    TrimUnchanged("Lunch");
    assert !Blank(e.description) && !Blank(e.location);
    assert IsRetained(e) && !IsHalfFilled(e);
    assert Retained([e]) == [e];
  }

  /** A filled draft whose one event has a description but no location gets the
      incomplete-event message. */
  lemma ScenarioMuseum()
    ensures var m := Validate(Snapshot(BasicInfo("Trip", "Rome", "Art", "100"), ["a", "b", "c"],
                                       [Event("AM", "9:00", "", "Museum")]));
      m == Messages("", "", IncompleteEventMessage) && !IsSubmittable(m)
  {
    var e := Event("AM", "9:00", "", "Museum");
    TrimUnchanged("");
    TrimUnchanged("Museum");
    assert !Blank(e.description) && Blank(e.location);
    assert IsRetained(e) && IsHalfFilled(e);
    assert Retained([e]) == [e];
  }

  /** A filled draft with one complete event and one sentinel is submittable: the
      sentinel is dropped before the checks. */
  lemma ScenarioCompleteAndSentinel()
    ensures var m := Validate(Snapshot(BasicInfo("Trip", "Rome", "Art", "100"), ["a", "b", "c"],
                                       [Event("PM", "3:00", "Cafe", "Lunch"), Sentinel]));
      IsSubmittable(m)
  {
    var e := Event("PM", "3:00", "Cafe", "Lunch");
    TrimUnchanged("Cafe");
    TrimUnchanged("Lunch");
    assert !Blank(e.description) && !Blank(e.location);
    assert IsRetained(e) && !IsHalfFilled(e) && IsComplete(e);
    SentinelNotRetained();
    assert Retained([Sentinel]) == [] by {
      assert [Sentinel][1..] == [];
    }
    assert Retained([e, Sentinel]) == [e] by {
      assert [e, Sentinel][1..] == [Sentinel];
    }
  }

  // ---------------------------------------------------------------------------
  // Time grid

  /** The label of one slot: `${hour}:00` or `${hour}:30`. */
  function SlotLabel(hour: nat, half: bool): string {
    DecimalString(hour) + (if half then ":30" else ":00")
  }

  /** Entry `i` of the grid: hour `i / 2 + 1`, on the half hour when `i` is odd. */
  function TimeSlot(i: nat): string {
    SlotLabel(i / 2 + 1, i % 2 == 1)
  }

  /** Different hours or different halves give different labels. */
  lemma {:induction false} SlotLabelInjective(h1: nat, b1: bool, h2: nat, b2: bool)
    requires SlotLabel(h1, b1) == SlotLabel(h2, b2)
    ensures h1 == h2 && b1 == b2
  {
    var d1, d2 := DecimalString(h1), DecimalString(h2);
    var s := SlotLabel(h1, b1);
    assert |d1| == |d2|;
    assert d1 == s[..|d1|] && d2 == s[..|d2|];
    DecimalStringInjective(h1, h2);
    assert s[|s| - 2] == (if b1 then '3' else '0');
    assert s[|s| - 2] == (if b2 then '3' else '0');
  }

  /** `generateTimeOptions`: the 24 half-hour labels "1:00", "1:30", ..., "12:30". */
  method GenerateTimeOptions() returns (times: seq<string>)
    ensures |times| == 24
    ensures forall i :: 0 <= i < |times| ==> times[i] == TimeSlot(i)
    ensures forall i, j :: 0 <= i < j < |times| ==> times[i] != times[j]
    ensures times[0] == Sentinel.time && times[23] == "12:30"
  {
    times := [];
    var hour := 1;
    while hour <= 12
      invariant 1 <= hour <= 13
      invariant |times| == 2 * (hour - 1)
      invariant forall i :: 0 <= i < |times| ==> times[i] == TimeSlot(i)
    {
      times := times + [SlotLabel(hour, false)];
      times := times + [SlotLabel(hour, true)];
      hour := hour + 1;
    }
    forall i, j | 0 <= i < j < |times| ensures times[i] != times[j] {
      if times[i] == times[j] {
        SlotLabelInjective(i / 2 + 1, i % 2 == 1, j / 2 + 1, j % 2 == 1);
      }
    }
    assert DecimalString(12) == "12";
  }

  // ---------------------------------------------------------------------------
  // The draft

  /** The page's state. */
  class Draft {
    var events: seq<Event>
    var selectedTags: seq<string>
    var details: BasicInfo
    var basicErrorMessage: string
    var tagErrorMessage: string
    var eventErrorMessage: string

    /** What every reachable state satisfies: at most 24 events and no tag twice. */
    ghost predicate Valid()
      reads this
    {
      |events| <= MaxEvents && NoDup(selectedTags)
    }

    function CurrentSnapshot(): Snapshot
      reads this
    {
      Snapshot(details, selectedTags, events)
    }

    function CurrentMessages(): Messages
      reads this
    {
      Messages(basicErrorMessage, tagErrorMessage, eventErrorMessage)
    }

    /** The state after `useState`: one sentinel event, nothing else entered. */
    constructor ()
      ensures Valid()
      ensures events == [Sentinel] && selectedTags == [] && details == EmptyBasicInfo
      ensures CurrentMessages() == Messages("", "", "")
    {
      events := [Sentinel];
      selectedTags := [];
      details := EmptyBasicInfo;
      basicErrorMessage, tagErrorMessage, eventErrorMessage := "", "", "";
    }

    /** `handleInputChange`: sets one basic-info value. */
    method HandleInputChange(field: BasicField, value: string)
      requires Valid()
      modifies this
      ensures Valid()
      ensures details == WithBasicValue(old(details), field, value)
      ensures events == old(events) && selectedTags == old(selectedTags)
      ensures CurrentMessages() == old(CurrentMessages())
    {
      details := WithBasicValue(details, field, value);
    }

    /** `handleEventChange`: sets one field of the event at `index`; the page only
        passes indices of events it is displaying. */
    method HandleEventChange(index: nat, field: EventField, value: string)
      requires Valid()
      requires index < |events|
      modifies this
      ensures Valid()
      ensures |events| == |old(events)|
      ensures events[index] == WithEventValue(old(events)[index], field, value)
      ensures forall i :: 0 <= i < |events| && i != index ==> events[i] == old(events)[i]
      ensures selectedTags == old(selectedTags) && details == old(details)
      ensures CurrentMessages() == old(CurrentMessages())
    {
      events := events[index := WithEventValue(events[index], field, value)];
    }

    /** `addEvent`: appends a sentinel unless the list already holds 24 events. */
    method AddEvent()
      requires Valid()
      modifies this
      ensures Valid()
      ensures |old(events)| >= MaxEvents ==>
        events == old(events) && eventErrorMessage == CapacityMessage
      ensures |old(events)| < MaxEvents ==>
        events == old(events) + [Sentinel] && eventErrorMessage == ""
      ensures selectedTags == old(selectedTags) && details == old(details)
      ensures basicErrorMessage == old(basicErrorMessage) && tagErrorMessage == old(tagErrorMessage)
    {
      if |events| >= MaxEvents {
        eventErrorMessage := CapacityMessage;
      } else {
        events := events + [Sentinel];
        eventErrorMessage := "";
      }
    }

    /** `removeEvent`: drops the event at `index`; other indices remove nothing. */
    method RemoveEvent(index: int)
      requires Valid()
      modifies this
      ensures Valid()
      ensures 0 <= index < |old(events)| ==> events == old(events)[..index] + old(events)[index + 1..]
      ensures !(0 <= index < |old(events)|) ==> events == old(events)
      ensures selectedTags == old(selectedTags) && details == old(details)
      ensures CurrentMessages() == old(CurrentMessages())
    {
      RemoveAtSplice(events, index);
      events := RemoveAt(events, index);
    }

    /** `handleTagSelection`: toggles one tag. */
    method HandleTagSelection(tag: string)
      requires Valid()
      modifies this
      ensures Valid()
      ensures selectedTags == Toggle(old(selectedTags), tag)
      ensures events == old(events) && details == old(details)
      ensures CurrentMessages() == old(CurrentMessages())
    {
      ToggleNoDup(selectedTags, tag);
      selectedTags := Toggle(selectedTags, tag);
    }

    /** `handleSubmit`: writes the three messages in the page's order. The event message
        is written twice, and the second write always replaces the first. */
    method HandleSubmit()
      requires Valid()
      modifies this
      ensures Valid()
      ensures events == old(events) && selectedTags == old(selectedTags) && details == old(details)
      ensures CurrentMessages() == Validate(CurrentSnapshot())
    {
      var filteredEvents := Retained(events);
      if BasicInfoFilled(details) {
        basicErrorMessage := "";
      } else {
        basicErrorMessage := BasicInfoMessage;
      }
      if |selectedTags| >= 3 {
        tagErrorMessage := "";
      } else {
        tagErrorMessage := TagMessage;
      }
      if HasComplete(filteredEvents) {
        eventErrorMessage := "";
      } else {
        eventErrorMessage := NoCompleteEventMessage;
      }
      if HasHalfFilled(filteredEvents) {
        eventErrorMessage := IncompleteEventMessage;
        return;
      } else {
        eventErrorMessage := "";
      }
    }
  }
}
