/**
 * The stateful part of the events page: the list of events (`items`), the
 * per-event attendance rosters (`attendeesByEvent`), the scan step of an
 * event's dialog, the row projection of the attendance export, and the
 * allocation of ids for new events.
 */
module EventsPage {
  import opened Wrappers
  import opened Directory
  import opened ScanResolver

  datatype EventItem = EventItem(
    id: int, title: string, date: string, time: string,
    venue: string, audience: string, description: string)

  /** The values of the "Add Event" form. */
  datatype EventValues = EventValues(
    title: string, date: string, time: string,
    venue: string, audience: string, description: string)

  /** One roster entry: the registrant's fields copied at scan time, with the capture instant (ISO text). */
  datatype AttendanceRecord = AttendanceRecord(
    id: int, name: string, kind: string, barangay: string,
    contactNumber: string, cropType: string, timestamp: string)

  /** One row of the spreadsheet export. */
  datatype ExportRow = ExportRow(
    id: int, name: string, kind: string, barangay: string, contact: string,
    crop: string, timestamp: string, event: string, date: string, time: string, venue: string)

  /** The descriptions of the four initial events. */
  const Description1: string := "Updates on coastal management, community consultation, and programs supporting local fisherfolks and farmers."
  const Description2: string := "Hands-on demos, seedling and fingerling distribution, and sign-ups for training opportunities."
  const Description3: string := "Community DRR training, emergency aid programs overview, and resilient livelihood planning."
  const Description4: string := "On-site registration and updates for city programs and assistance. Bring valid ID."

  /** The four events the page starts with (only their ids and times matter to the model). */
  function InitialEvents(): seq<EventItem> {
    [ EventItem(1, "Olongapo Coastal Resource Summit", "February 10, 2026", "9:00 AM \U{2013} 3:00 PM",
                "Olongapo City Hall Plaza", "Fisherfolks & Farmers \U{2014} everyone invited",
                Description1),
      EventItem(2, "Integrated Farming & Aquaculture Fair", "February 17, 2026", "8:00 AM \U{2013} 5:00 PM",
                "Barangay Barretto Covered Court, Olongapo City", "Fisherfolks & Farmers \U{2014} open to all",
                Description2),
      EventItem(3, "Disaster Preparedness & Livelihood Workshop", "February 24, 2026", "1:00 PM \U{2013} 4:30 PM",
                "Olongapo Convention Center", "Fisherfolks & Farmers \U{2014} everyone invited",
                Description3),
      EventItem(4, "Citywide Registry Day: Fisherfolk & Farmer Enrollment", "March 2, 2026", "8:00 AM \U{2013} 4:00 PM",
                "Olongapo City Agriculture Office", "Open invitation to all fisherfolks and farmers",
                Description4) ]
  }

  // ---------------------------------------------------------------------
  // Rosters

  /** `attendeesByEvent[eventId] ?? []`. */
  function RosterOf(byEvent: map<int, seq<AttendanceRecord>>, eventId: int): seq<AttendanceRecord> {
    if eventId in byEvent then byEvent[eventId] else []
  }

  predicate HasAttendee(roster: seq<AttendanceRecord>, id: int) {
    exists k :: 0 <= k < |roster| && roster[k].id == id
  }

  /** No registrant appears twice on a roster. */
  predicate UniqueIds(roster: seq<AttendanceRecord>) {
    forall k, m :: 0 <= k < m < |roster| ==> roster[k].id != roster[m].id
  }

  /** Every roster of the page keeps its ids unique. */
  predicate AllRostersUnique(byEvent: map<int, seq<AttendanceRecord>>) {
    forall e :: e in byEvent ==> UniqueIds(byEvent[e])
  }

  /** The entry a scan of `member` creates. */
  function EntryFor(member: Registrant, timestamp: string): (a: AttendanceRecord)
    ensures a.id == member.id && a.name == member.name && a.timestamp == timestamp
    ensures a.kind == member.kind && a.barangay == member.barangay
    ensures a.contactNumber == member.contactNumber && a.cropType == member.cropType
  {
    AttendanceRecord(member.id, member.name, member.kind, member.barangay,
                     member.contactNumber, member.cropType, timestamp)
  }

  /**
   * The state update of `recordAttendance(eventId, member)`. A registrant
   * already on the event's roster leaves the whole map as it was; otherwise
   * the roster gains exactly one entry, at its front. Other events' rosters
   * are untouched, the member is on the roster afterwards, and a roster
   * whose ids were unique keeps them unique.
   */
  function WithAttendance(byEvent: map<int, seq<AttendanceRecord>>, eventId: int, member: Registrant, timestamp: string)
    : (r: map<int, seq<AttendanceRecord>>)
    ensures HasAttendee(RosterOf(byEvent, eventId), member.id) ==> r == byEvent
    ensures !HasAttendee(RosterOf(byEvent, eventId), member.id) ==>
              r.Keys == byEvent.Keys + {eventId}
              && RosterOf(r, eventId) == [EntryFor(member, timestamp)] + RosterOf(byEvent, eventId)
    ensures forall e :: e != eventId ==> RosterOf(r, e) == RosterOf(byEvent, e)
    ensures HasAttendee(RosterOf(r, eventId), member.id)
    ensures UniqueIds(RosterOf(byEvent, eventId)) ==> UniqueIds(RosterOf(r, eventId))
    ensures AllRostersUnique(byEvent) ==> AllRostersUnique(r)
  {
    var list := RosterOf(byEvent, eventId);
    if HasAttendee(list, member.id) then byEvent
    else
      var r := byEvent[eventId := [EntryFor(member, timestamp)] + list];
      assert r[eventId][0].id == member.id;
      r
  }

  /** Recording the same registrant again, at any later instant, changes nothing. */
  lemma {:induction false} RecordIsIdempotent(byEvent: map<int, seq<AttendanceRecord>>, eventId: int, member: Registrant, t1: string, t2: string)
    ensures var once := WithAttendance(byEvent, eventId, member, t1);
            WithAttendance(once, eventId, member, t2) == once
  {
    var once := WithAttendance(byEvent, eventId, member, t1);
    assert HasAttendee(RosterOf(once, eventId), member.id);
  }

  // ---------------------------------------------------------------------
  // Export

  /** The export row of one attendee: the attendee's fields, then the event's on every row. */
  function ExportRowOf(event: EventItem, a: AttendanceRecord, formatTime: string -> string): ExportRow {
    ExportRow(a.id, a.name, a.kind, a.barangay, a.contactNumber, a.cropType,
              formatTime(a.timestamp), event.title, event.date, event.time, event.venue)
  }

  /**
   * The rows of `exportAttendees(event)`: one per attendee in roster order,
   * each repeating the event's title, date, time and venue. `formatTime`
   * stands for `new Date(…).toLocaleString()`.
   */
  function ExportRows(event: EventItem, roster: seq<AttendanceRecord>, formatTime: string -> string): (rows: seq<ExportRow>)
    ensures |rows| == |roster|
    ensures forall k :: 0 <= k < |rows| ==>
              rows[k].id == roster[k].id && rows[k].name == roster[k].name && rows[k].kind == roster[k].kind
              && rows[k].barangay == roster[k].barangay && rows[k].contact == roster[k].contactNumber
              && rows[k].crop == roster[k].cropType && rows[k].timestamp == formatTime(roster[k].timestamp)
    ensures forall k :: 0 <= k < |rows| ==>
              rows[k].event == event.title && rows[k].date == event.date
              && rows[k].time == event.time && rows[k].venue == event.venue
  {
    seq(|roster|, k requires 0 <= k < |roster| => ExportRowOf(event, roster[k], formatTime))
  }

  // ---------------------------------------------------------------------
  // Event ids

  /** `(items[0]?.id ?? 0) + 1`. */
  function NextEventId(items: seq<EventItem>): (id: int)
    ensures items == [] ==> id == 1
    ensures items != [] ==> id > items[0].id
  {
    (if items == [] then 0 else items[0].id) + 1
  }

  predicate UniqueEventIds(items: seq<EventItem>) {
    forall k, m :: 0 <= k < m < |items| ==> items[k].id != items[m].id
  }

  /** The largest id in the list, 0 for an empty list. */
  function MaxEventId(items: seq<EventItem>): (r: int)
    ensures forall k :: 0 <= k < |items| ==> items[k].id <= r
    ensures items == [] ==> r == 0
  {
    if items == [] then 0
    else
      var rest := MaxEventId(items[1..]);
      if |items| == 1 || items[0].id > rest then items[0].id else rest
  }

  /** An id above every id in the list (and at least 1): the allocation the page evidently intends. */
  function FreshEventId(items: seq<EventItem>): (r: int)
    ensures r >= 1
    ensures forall k :: 0 <= k < |items| ==> items[k].id < r
  {
    var m := MaxEventId(items);
    (if m < 0 then 0 else m) + 1
  }

  function NewEvent(id: int, v: EventValues): EventItem {
    EventItem(id, v.title, v.date, v.time, v.venue, v.audience, v.description)
  }

  /** Adding an event to the starting list gives it id 2, which the second starting event already has. */
  lemma OnAddCollidesOnInitialEvents(v: EventValues)
    ensures var items := [NewEvent(NextEventId(InitialEvents()), v)] + InitialEvents();
            items[0].id == 2 && items[2].id == 2 && !UniqueEventIds(items)
  {
    var items := [NewEvent(NextEventId(InitialEvents()), v)] + InitialEvents();
    assert items[0].id == items[2].id;
  }

  /** With the corrected allocation, prepending a new event keeps ids unique. */
  lemma FreshIdKeepsIdsUnique(items: seq<EventItem>, v: EventValues)
    requires UniqueEventIds(items)
    ensures UniqueEventIds([NewEvent(FreshEventId(items), v)] + items)
  {
    var next := [NewEvent(FreshEventId(items), v)] + items;
    forall k, m | 0 <= k < m < |next| ensures next[k].id != next[m].id {
      if k == 0 {
        assert next[m] == items[m - 1];
      } else {
        assert next[k] == items[k - 1] && next[m] == items[m - 1];
      }
    }
  }

  // ---------------------------------------------------------------------
  // The page

  class EventsPage {
    var items: seq<EventItem>
    var attendeesByEvent: map<int, seq<AttendanceRecord>>

    ghost predicate Valid()
      reads this
    {
      AllRostersUnique(attendeesByEvent)
    }

    constructor ()
      ensures Valid()
      ensures items == InitialEvents() && attendeesByEvent == map[]
    {
      items := InitialEvents();
      attendeesByEvent := map[];
    }

    /** The `attendees` given to an event's dialog. */
    function Attendees(eventId: int): seq<AttendanceRecord>
      reads this
    {
      RosterOf(attendeesByEvent, eventId)
    }

    /** `recordAttendance(eventId, member)`, with the capture instant as `timestamp`. */
    method RecordAttendance(eventId: int, member: Registrant, timestamp: string)
      requires Valid()
      modifies this
      ensures Valid()
      ensures items == old(items)
      ensures attendeesByEvent == WithAttendance(old(attendeesByEvent), eventId, member, timestamp)
    {
      var list := RosterOf(attendeesByEvent, eventId);
      if HasAttendee(list, member.id) {
        return;
      }
      var next := EntryFor(member, timestamp);
      attendeesByEvent := attendeesByEvent[eventId := [next] + list];
    }

    /** `exportAttendees(event)`, up to the rows handed to the spreadsheet library. */
    function ExportAttendees(event: EventItem, formatTime: string -> string): (rows: seq<ExportRow>)
      reads this
      ensures |rows| == |Attendees(event.id)|
      ensures Attendees(event.id) == [] ==> rows == []
    {
      ExportRows(event, Attendees(event.id), formatTime)
    }

    /** `onAdd(values)`: the new event goes first, with the id after the first current event's. */
    method OnAdd(values: EventValues)
      modifies this
      ensures items == [NewEvent(NextEventId(old(items)), values)] + old(items)
      ensures attendeesByEvent == old(attendeesByEvent)
    {
      var nextId := (if items == [] then 0 else items[0].id) + 1;
      items := [NewEvent(nextId, values)] + items;
    }

    /** `onAdd` with an id above every current id, so that ids stay unique. */
    method OnAddFresh(values: EventValues)
      requires UniqueEventIds(items)
      modifies this
      ensures UniqueEventIds(items)
      ensures items == [NewEvent(FreshEventId(old(items)), values)] + old(items)
      ensures attendeesByEvent == old(attendeesByEvent)
    {
      FreshIdKeepsIdsUnique(items, values);
      items := [NewEvent(FreshEventId(items), values)] + items;
    }
  }

  /**
   * One event's dialog: the scan callback's state (`lastAddedIdRef`, the
   * shown text and member name) over the page that holds the rosters.
   */
  class ScanSession {
    const page: EventsPage
    const eventId: int
    const directory: seq<Registrant>
    var lastAddedId: Option<int>
    var qrText: Option<string>
    var memberName: Option<string>

    constructor (page: EventsPage, eventId: int, directory: seq<Registrant>)
      ensures this.page == page && this.eventId == eventId && this.directory == directory
      ensures lastAddedId == None && qrText == None && memberName == None
    {
      this.page := page;
      this.eventId := eventId;
      this.directory := directory;
      lastAddedId := None;
      qrText := None;
      memberName := None;
    }

    /** The scanner's decode callback for text `data` (lines 138–146), with `isDone` as computed for the dialog. */
    method OnDecode(data: string, isDone: bool, timestamp: string)
      requires page.Valid()
      modifies this, page
      ensures page.Valid()
      ensures qrText == Some(data)
      ensures var m := FindMember(directory, data);
              && memberName == (if m.Some? then Some(m.value.name) else None)
              && (if !isDone && m.Some? && old(lastAddedId) != Some(m.value.id) then
                    lastAddedId == Some(m.value.id)
                    && page.attendeesByEvent == WithAttendance(old(page.attendeesByEvent), eventId, m.value, timestamp)
                  else
                    lastAddedId == old(lastAddedId) && page.attendeesByEvent == old(page.attendeesByEvent))
      ensures page.items == old(page.items)
    {
      qrText := Some(data);
      var member := FindMember(directory, data);
      memberName := if member.Some? then Some(member.value.name) else None;
      if !isDone && member.Some? && lastAddedId != Some(member.value.id) {
        page.RecordAttendance(eventId, member.value, timestamp);
        lastAddedId := Some(member.value.id);
      }
    }
  }

  /** A text made of one registrant's id resolves to that registrant when ids are distinct. */
  lemma BareIdResolves(dir: seq<Registrant>, k: int, s: string)
    requires 0 <= k < |dir| && (forall m :: 0 <= m < k ==> dir[m].id != dir[k].id)
    requires JsText.AllDigits(s) && 1 <= |s| <= 5 && JsText.DigitsValue(s) == dir[k].id
    ensures FindMember(dir, s) == Some(dir[k])
  {
    DigitTextIsItsOwnToken(s);
    assert IsFirstWithId(dir, k, dir[k].id);
    FindMemberResolves(dir, s);
  }

  lemma SevenAndNineResolve(r7: Registrant, r9: Registrant)
    requires r7.id == 7 && r9.id == 9
    ensures FindMember([r7, r9], "7") == Some(r7) && FindMember([r7, r9], "9") == Some(r9)
  {
    assert JsText.DigitsValue("7") == 7 && JsText.DigitsValue("9") == 9;
    BareIdResolves([r7, r9], 0, "7");
    BareIdResolves([r7, r9], 1, "9");
  }

  /** Two different registrants recorded one after the other, on an empty page: the later one first. */
  lemma TwoRegistrantsRoster(eventId: int, a: Registrant, b: Registrant, t1: string, t2: string)
    requires a.id != b.id
    ensures RosterOf(WithAttendance(WithAttendance(map[], eventId, a, t1), eventId, b, t2), eventId)
            == [EntryFor(b, t2), EntryFor(a, t1)]
  {
    var m1 := WithAttendance(map[], eventId, a, t1);
    assert RosterOf(m1, eventId) == [EntryFor(a, t1)];
    assert !HasAttendee([EntryFor(a, t1)], b.id);
  }

  /**
   * Scanning ids 7, 7, 9 for an open event with an empty roster: the repeat
   * is suppressed and the roster holds 9 then 7, most recent first.
   */
  method ScanSevenSevenNine(r7: Registrant, r9: Registrant) returns (roster: seq<AttendanceRecord>)
    requires r7.id == 7 && r9.id == 9
    ensures |roster| == 2 && roster[0].id == 9 && roster[1].id == 7
    ensures roster[0].name == r9.name && roster[1].name == r7.name
  {
    var dir := [r7, r9];
    SevenAndNineResolve(r7, r9);
    var page := new EventsPage();
    var session := new ScanSession(page, 1, dir);
    session.OnDecode("7", false, "t1");
    ghost var afterFirst := page.attendeesByEvent;
    assert session.lastAddedId == Some(7);
    session.OnDecode("7", false, "t2");
    assert page.attendeesByEvent == afterFirst;
    session.OnDecode("9", false, "t3");
    roster := page.Attendees(1);
    TwoRegistrantsRoster(1, r7, r9, "t1", "t3");
  }
}
