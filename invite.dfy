/** The body of the converter script: one pass over the MAPI properties of
    the decoded winmail.dat, which fills the event and remembers the
    time-zone description and the two timestamps, then the attachment of the
    parsed zone to both timestamps and the assembly of the calendar. */
module Invite {
  import opened Outcomes
  import TimeZones

  /** A `datetime`: a naive wall-clock value, kept opaque, and its `tzinfo`,
      the offset in minutes of a fixed `datetime.timezone` or `None`. */
  datatype DateTime = DateTime(naive: int, tzinfo: Option<int>)

  /** The `data` of a MAPI property, typed as Python sees it at run time:
      a `str`, a `datetime`, `bytes`, or a value with no `replace` method
      (an `int`, a `float`, `None`), kept opaque. */
  datatype Data = Text(text: string) | Moment(moment: DateTime) | Binary(bytes: seq<bv8>) | Scalar

  /** One element of `tnefobj.mapiprops`: its `name_str` and its `data`. */
  datatype Record = Record(name: string, data: Data)

  /** One property added to an icalendar component by `add(key, value)`. */
  type Entry = (string, Data)

  const SubjectKey := "MAPI_SUBJECT"
  const LocationKey := "MAPI_OUTLOOK_LOCATION"
  const TzKey := "MAPI_TIME_ZONE_DESCRIPTION"
  const StartKey := "MAPI_START_DATE"
  const EndKey := "MAPI_END_DATE"
  const CreatorKey := "MAPI_CREATOR_NAME"
  /** The sender literal as the script writes it, with a stray closing quote. */
  const SenderKey := "MAPI_SENDER_EMAIL_ADDRESS\""
  /** The name under which the sender's address actually arrives. */
  const SenderProperty := "MAPI_SENDER_EMAIL_ADDRESS"

  const ProdId := "-//TNEF to ICS converter//labs.timtom.ch//"

  /** An icalendar `Calendar` or `Event`: `add` appends; a key added twice keeps both values. */
  class Component {
    var entries: seq<Entry>

    constructor ()
      ensures entries == []
    {
      entries := [];
    }

    method Add(key: string, value: Data)
      modifies this
      ensures entries == old(entries) + [(key, value)]
    {
      entries := entries + [(key, value)];
    }
  }

  /** The script's variables after the scan; `None` is a variable never bound. */
  datatype Fields = Fields(tzstring: Option<Data>, starttime: Option<Data>, endtime: Option<Data>,
                           orgname: Option<Data>, orgemail: Option<Data>)

  /** The data of the last record called `name`: what a variable overwritten
      on every match holds after the pass. */
  function LastData(records: seq<Record>, name: string): Option<Data> {
    if records == [] then None
    else if records[|records| - 1].name == name then Some(records[|records| - 1].data)
    else LastData(records[..|records| - 1], name)
  }

  /** A variable stays unbound exactly when no record has its name. */
  lemma {:induction false} UnboundIffAbsent(records: seq<Record>, name: string)
    ensures LastData(records, name).None? <==> forall i :: 0 <= i < |records| ==> records[i].name != name
  {
    if records != [] {
      var init := records[..|records| - 1];
      UnboundIffAbsent(init, name);
      assert forall i :: 0 <= i < |init| ==> init[i] == records[i];
    }
  }

  /** Last match wins: when record `i` is the last one called `name`, its data
      is what the variable holds, whatever came before it. */
  lemma {:induction false} LastMatchWins(records: seq<Record>, name: string, i: nat)
    requires i < |records| && records[i].name == name
    requires forall j :: i < j < |records| ==> records[j].name != name
    ensures LastData(records, name) == Some(records[i].data)
  {
    var n := |records| - 1;
    if i < n {
      var init := records[..n];
      assert init[i] == records[i];
      LastMatchWins(init, name, i);
    }
  }

  /** The variables as the loop at the head of the script leaves them. */
  function Resolve(records: seq<Record>): Fields {
    Fields(LastData(records, TzKey), LastData(records, StartKey), LastData(records, EndKey),
           LastData(records, CreatorKey), LastData(records, SenderKey))
  }

  /** What one record adds to the event. */
  function Added(r: Record): seq<Entry> {
    (if r.name == SubjectKey then [("summary", r.data)] else []) +
    (if r.name == LocationKey then [("location", r.data)] else [])
  }

  /** What the whole pass adds to the event, in scan order. */
  function EventAdditions(records: seq<Record>): seq<Entry> {
    if records == [] then []
    else EventAdditions(records[..|records| - 1]) + Added(records[|records| - 1])
  }

  /** Scanning one more record rebinds a variable exactly when the record has its name. */
  lemma LastDataExtend(records: seq<Record>, r: Record, name: string)
    ensures LastData(records + [r], name) == if r.name == name then Some(r.data) else LastData(records, name)
  {
    assert (records + [r])[..|records|] == records;
  }

  /** Scanning one more record adds what that record adds, after the rest. */
  lemma AdditionsExtend(records: seq<Record>, r: Record)
    ensures EventAdditions(records + [r]) == EventAdditions(records) + Added(r)
  {
    assert (records + [r])[..|records|] == records;
  }

  /** The loop `for value in tnefobj.mapiprops`: every match overwrites its
      variable and every subject or location is added to the event. */
  method ScanProperties(records: seq<Record>, event: Component) returns (fields: Fields)
    modifies event
    ensures fields == Resolve(records)
    ensures event.entries == old(event.entries) + EventAdditions(records)
  {
    var tzstring, starttime, endtime, orgname, orgemail := None, None, None, None, None;
    for i := 0 to |records|
      invariant tzstring == LastData(records[..i], TzKey)
      invariant starttime == LastData(records[..i], StartKey)
      invariant endtime == LastData(records[..i], EndKey)
      invariant orgname == LastData(records[..i], CreatorKey)
      invariant orgemail == LastData(records[..i], SenderKey)
      invariant event.entries == old(event.entries) + EventAdditions(records[..i])
    {
      var value := records[i];
      ghost var added := event.entries;
      if value.name == SubjectKey {
        event.Add("summary", value.data);
      }
      if value.name == LocationKey {
        event.Add("location", value.data);
      }
      assert event.entries == added + Added(value);
      if value.name == TzKey {
        tzstring := Some(value.data);
      }
      if value.name == StartKey {
        starttime := Some(value.data);
      }
      if value.name == EndKey {
        endtime := Some(value.data);
      }
      if value.name == CreatorKey {
        orgname := Some(value.data);
      }
      if value.name == SenderKey {
        orgemail := Some(value.data);
      }
      assert records[..i + 1] == records[..i] + [value];
      LastDataExtend(records[..i], value, TzKey);
      LastDataExtend(records[..i], value, StartKey);
      LastDataExtend(records[..i], value, EndKey);
      LastDataExtend(records[..i], value, CreatorKey);
      LastDataExtend(records[..i], value, SenderKey);
      AdditionsExtend(records[..i], value);
    }
    assert records[..|records|] == records;
    fields := Fields(tzstring, starttime, endtime, orgname, orgemail);
  }

  /** `variable.replace(tzinfo=tz)`: NameError for a variable never bound;
      on a `str` or `bytes`, whose `replace` takes no keywords, TypeError; on a
      value with no `replace` at all, AttributeError. On a `datetime` the
      wall-clock value is kept and only the zone changes. */
  function Replace(v: Option<Data>, variable: string, tz: Option<int>): (r: Outcome<DateTime>)
    ensures r.Ok? <==> v.Some? && v.value.Moment?
    ensures r.Ok? ==> r.value.naive == v.value.moment.naive && r.value.tzinfo == tz
    ensures v.None? ==> r == Raised(NameError(variable))
    ensures v.Some? && (v.value.Text? || v.value.Binary?) ==> r == Raised(TypeError(variable))
    ensures v.Some? && v.value.Scalar? ==> r == Raised(AttributeError(variable))
  {
    match v
    case None => Raised(NameError(variable))
    case Some(Moment(t)) => Ok(DateTime(t.naive, tz))
    case Some(Scalar) => Raised(AttributeError(variable))
    case Some(_) => Raised(TypeError(variable))
  }

  /** `parse_tz(tzstring)`: NameError when no description was seen, TypeError
      when its data is not a string (`re.search` rejects bytes, numbers and
      `None` alike), and otherwise whatever `parse_tz` returns or raises. */
  function ZoneOf(tzstring: Option<Data>): (r: Outcome<Option<int>>)
    ensures r.Ok? <==> tzstring.Some? && tzstring.value.Text? && TimeZones.ParseTz(tzstring.value.text).Ok?
    ensures tzstring.Some? && tzstring.value.Text? ==> r == TimeZones.ParseTz(tzstring.value.text)
    ensures tzstring.None? ==> r == Raised(NameError("tzstring"))
    ensures tzstring.Some? && !tzstring.value.Text? ==> r == Raised(TypeError("tzstring"))
  {
    match tzstring
    case None => Raised(NameError("tzstring"))
    case Some(Text(s)) => TimeZones.ParseTz(s)
    case Some(_) => Raised(TypeError("tzstring"))
  }

  /** The block guarded by `timezone != ''`. That guard compares the imported
      `datetime.timezone` class with a string, so it always holds and the block
      always runs: both timestamps get the zone `parse_tz` returns, the same
      one for both, and no zone (naive) when the description holds no offset. */
  function Attach(f: Fields): (r: Outcome<(DateTime, DateTime)>)
    ensures r.Ok? <==> ZoneOf(f.tzstring).Ok? &&
                       f.starttime.Some? && f.starttime.value.Moment? &&
                       f.endtime.Some? && f.endtime.value.Moment?
    ensures r.Ok? ==> r.value.0.tzinfo == r.value.1.tzinfo == TimeZones.ParseTz(f.tzstring.value.text).value
    ensures r.Ok? ==> r.value.0.naive == f.starttime.value.moment.naive &&
                      r.value.1.naive == f.endtime.value.moment.naive
    ensures ZoneOf(f.tzstring).Raised? ==> r == Raised(ZoneOf(f.tzstring).error)
    ensures ZoneOf(f.tzstring).Ok? && !(f.starttime.Some? && f.starttime.value.Moment?) ==>
              r == Raised(Replace(f.starttime, "starttime", None).error)
    ensures ZoneOf(f.tzstring).Ok? && f.starttime.Some? && f.starttime.value.Moment? &&
            !(f.endtime.Some? && f.endtime.value.Moment?) ==>
              r == Raised(Replace(f.endtime, "endtime", None).error)
  {
    match ZoneOf(f.tzstring)
    case Raised(e) => Raised(e)
    case Ok(tz) =>
      match Replace(f.starttime, "starttime", tz)
      case Raised(e) => Raised(e)
      case Ok(start) =>
        match Replace(f.endtime, "endtime", tz)
        case Raised(e) => Raised(e)
        case Ok(end) => Ok((start, end))
  }

  /** The zone step as the script runs it: reassign `starttime` and `endtime`,
      then add them to the event as DTSTART and DTEND. An exception leaves the
      event as it was. */
  method AttachZone(f: Fields, event: Component) returns (r: Outcome<(DateTime, DateTime)>)
    modifies event
    ensures r == Attach(f)
    ensures r.Ok? ==> event.entries == old(event.entries) + [("dtstart", Moment(r.value.0)), ("dtend", Moment(r.value.1))]
    ensures r.Raised? ==> event.entries == old(event.entries)
  {
    var tz := ZoneOf(f.tzstring);
    if tz.Raised? {
      return Raised(tz.error);
    }
    var starttime := Replace(f.starttime, "starttime", tz.value);
    if starttime.Raised? {
      return Raised(starttime.error);
    }
    var endtime := Replace(f.endtime, "endtime", tz.value);
    if endtime.Raised? {
      return Raised(endtime.error);
    }
    event.Add("dtstart", Moment(starttime.value));
    event.Add("dtend", Moment(endtime.value));
    r := Ok((starttime.value, endtime.value));
  }

  /** The calendar the script writes: the calendar's own properties and those
      of its one event. */
  datatype Invitation = Invitation(calendar: seq<Entry>, event: seq<Entry>)

  const CalendarHeader: seq<Entry> := [("prodid", Text(ProdId)), ("version", Text("2.0"))]

  /** The whole conversion, from the decoded properties and message body to
      the calendar, or the exception that aborts the script before anything
      is written. */
  function Conversion(records: seq<Record>, body: Data): Outcome<Invitation> {
    match Attach(Resolve(records))
    case Raised(e) => Raised(e)
    case Ok(times) =>
      Ok(Invitation(CalendarHeader,
                    EventAdditions(records) +
                    [("dtstart", Moment(times.0)), ("dtend", Moment(times.1)), ("description", body)]))
  }

  /** The script from `newcal = Calendar()` to `newcal.add_component(newevent)`. */
  method Convert(records: seq<Record>, body: Data) returns (r: Outcome<Invitation>)
    ensures r == Conversion(records, body)
  {
    var newcal := new Component();
    var newevent := new Component();
    newcal.Add("prodid", Text(ProdId));
    newcal.Add("version", Text("2.0"));
    assert newcal.entries == CalendarHeader;
    var fields := ScanProperties(records, newevent);
    assert newevent.entries == EventAdditions(records);
    var zoned := AttachZone(fields, newevent);
    if zoned.Raised? {
      return Raised(zoned.error);
    }
    newevent.Add("description", body);
    ghost var times := zoned.value;
    assert newevent.entries == EventAdditions(records) +
                               [("dtstart", Moment(times.0)), ("dtend", Moment(times.1))] + [("description", body)];
    assert newevent.entries == EventAdditions(records) +
                               [("dtstart", Moment(times.0)), ("dtend", Moment(times.1)), ("description", body)];
    r := Ok(Invitation(newcal.entries, newevent.entries));
  }

  // Properties of the pass and of the conversion

  function CountNamed(records: seq<Record>, name: string): nat {
    if records == [] then 0
    else CountNamed(records[..|records| - 1], name) + (if records[|records| - 1].name == name then 1 else 0)
  }

  function CountKey(entries: seq<Entry>, key: string): nat {
    if entries == [] then 0
    else CountKey(entries[..|entries| - 1], key) + (if entries[|entries| - 1].0 == key then 1 else 0)
  }

  lemma {:induction false} CountKeyAppend(a: seq<Entry>, b: seq<Entry>, key: string)
    ensures CountKey(a + b, key) == CountKey(a, key) + CountKey(b, key)
  {
    if b != [] {
      assert (a + b)[..|a + b| - 1] == a + b[..|b| - 1];
      CountKeyAppend(a, b[..|b| - 1], key);
    } else {
      assert a + b == a;
    }
  }

  /** What a single record contributes to the counts. */
  lemma AddedCounts(r: Record)
    ensures CountKey(Added(r), "summary") == if r.name == SubjectKey then 1 else 0
    ensures CountKey(Added(r), "location") == if r.name == LocationKey then 1 else 0
    ensures |Added(r)| == (if r.name == SubjectKey then 1 else 0) + (if r.name == LocationKey then 1 else 0)
  {
    assert SubjectKey[5] != LocationKey[5];
    if r.name == SubjectKey {
      assert Added(r) == [("summary", r.data)];
      assert Added(r)[..0] == [];
    } else if r.name == LocationKey {
      assert Added(r) == [("location", r.data)];
      assert Added(r)[..0] == [];
    } else {
      assert Added(r) == [];
    }
  }

  /** Each MAPI_SUBJECT record adds exactly one SUMMARY and each
      MAPI_OUTLOOK_LOCATION record exactly one LOCATION; nothing else adds. */
  lemma {:induction false} OneEntryPerRecord(records: seq<Record>)
    ensures CountKey(EventAdditions(records), "summary") == CountNamed(records, SubjectKey)
    ensures CountKey(EventAdditions(records), "location") == CountNamed(records, LocationKey)
    ensures |EventAdditions(records)| == CountNamed(records, SubjectKey) + CountNamed(records, LocationKey)
  {
    if records != [] {
      var init, last := records[..|records| - 1], records[|records| - 1];
      OneEntryPerRecord(init);
      AddedCounts(last);
      CountKeyAppend(EventAdditions(init), Added(last), "summary");
      CountKeyAppend(EventAdditions(init), Added(last), "location");
    }
  }

  /** The pass adds in scan order: the additions of a concatenation are those
      of its parts, one after the other. */
  lemma {:induction false} AdditionsInScanOrder(a: seq<Record>, b: seq<Record>)
    ensures EventAdditions(a + b) == EventAdditions(a) + EventAdditions(b)
  {
    if b == [] {
      assert a + b == a;
    } else {
      var init := b[..|b| - 1];
      assert (a + b)[..|a + b| - 1] == a + init;
      AdditionsInScanOrder(a, init);
    }
  }

  /** A record whose name the script does not test for changes nothing. */
  lemma IgnoredRecord(records: seq<Record>, r: Record)
    requires r.name !in {SubjectKey, LocationKey, TzKey, StartKey, EndKey, CreatorKey, SenderKey}
    ensures Resolve(records + [r]) == Resolve(records)
    ensures EventAdditions(records + [r]) == EventAdditions(records)
  {
    LastDataExtend(records, r, TzKey);
    LastDataExtend(records, r, StartKey);
    LastDataExtend(records, r, EndKey);
    LastDataExtend(records, r, CreatorKey);
    LastDataExtend(records, r, SenderKey);
    AdditionsExtend(records, r);
    assert Added(r) == [];
  }

  /** `orgemail` is never bound by a record carrying the sender's address,
      nor by any property whose name has no quote in it, because the compared
      literal ends in a quote. */
  lemma SenderNeverResolved(records: seq<Record>)
    requires forall i :: 0 <= i < |records| ==> '"' !in records[i].name
    ensures Resolve(records).orgemail == None
  {
    assert SenderKey[|SenderKey| - 1] == '"';
    UnboundIffAbsent(records, SenderKey);
    forall i | 0 <= i < |records|
      ensures records[i].name != SenderKey
    {
      assert '"' in SenderKey;
    }
  }

  /** A record carrying the sender's address under its real name leaves
      `orgemail` as it was. */
  lemma SenderAddressIgnored(records: seq<Record>, address: Data)
    ensures Resolve(records + [Record(SenderProperty, address)]).orgemail == Resolve(records).orgemail
  {
    assert |SenderProperty| != |SenderKey|;
    LastDataExtend(records, Record(SenderProperty, address), SenderKey);
  }

  /** Two descriptions: the later one is the one parsed. */
  lemma LastDescriptionWins(records: seq<Record>, a: string, b: string)
    requires records == [Record(TzKey, Text(a)), Record(TzKey, Text(b))]
    ensures Resolve(records).tzstring == Some(Text(b))
  {
  }

  /** Two subjects: the script adds both to the event, in scan order (no
      last-one-wins for the properties it adds directly). */
  lemma RepeatedSubjectAddsBoth(records: seq<Record>, a: Data, b: Data)
    requires records == [Record(SubjectKey, a), Record(SubjectKey, b)]
    ensures EventAdditions(records) == [("summary", a), ("summary", b)]
  {
    var first := records[..1];
    assert first == [Record(SubjectKey, a)] && first[..0] == [];
    assert SubjectKey != LocationKey;
    assert Added(records[0]) == [("summary", a)];
    assert Added(records[1]) == [("summary", b)];
    assert EventAdditions(first) == EventAdditions(first[..0]) + Added(records[0]);
    assert EventAdditions(records) == EventAdditions(first) + Added(records[1]);
  }

  /** Without a start date, an end date or a time-zone description the script
      raises before DTSTART and DTEND are added, so no calendar is written. */
  lemma MissingPropertyAborts(records: seq<Record>, body: Data)
    requires (forall i :: 0 <= i < |records| ==> records[i].name != TzKey) ||
             (forall i :: 0 <= i < |records| ==> records[i].name != StartKey) ||
             (forall i :: 0 <= i < |records| ==> records[i].name != EndKey)
    ensures Conversion(records, body).Raised?
    ensures (forall i :: 0 <= i < |records| ==> records[i].name != TzKey) ==>
              Conversion(records, body) == Raised(NameError("tzstring"))
  {
    UnboundIffAbsent(records, TzKey);
    UnboundIffAbsent(records, StartKey);
    UnboundIffAbsent(records, EndKey);
  }

  /** A written calendar gives DTSTART and DTEND the same zone: the offset of
      the first `UTC±HH:MM` in the last description, or none (naive times)
      when it holds no such text. */
  lemma SameZoneOnBothTimes(records: seq<Record>, body: Data, doc: Invitation)
    requires Conversion(records, body) == Ok(doc)
    ensures |doc.event| >= 3
    ensures var n := |doc.event|;
            doc.event[n - 3].0 == "dtstart" && doc.event[n - 2].0 == "dtend" &&
            doc.event[n - 3].1.Moment? && doc.event[n - 2].1.Moment? &&
            doc.event[n - 3].1.moment.tzinfo == doc.event[n - 2].1.moment.tzinfo
    ensures LastData(records, TzKey).Some? && LastData(records, TzKey).value.Text?
    ensures var zone := doc.event[|doc.event| - 3].1.moment.tzinfo;
            var description := LastData(records, TzKey).value.text;
            TimeZones.ParseTz(description) == Ok(zone) &&
            (zone == None <==> !TimeZones.HasMatch(description))
  {
  }

  /** A written calendar holds one SUMMARY per MAPI_SUBJECT record and one
      LOCATION per MAPI_OUTLOOK_LOCATION record. */
  lemma SummariesCounted(records: seq<Record>, body: Data, doc: Invitation)
    requires Conversion(records, body) == Ok(doc)
    ensures CountKey(doc.event, "summary") == CountNamed(records, SubjectKey)
    ensures CountKey(doc.event, "location") == CountNamed(records, LocationKey)
  {
    var times := Attach(Resolve(records)).value;
    var tail: seq<Entry> := [("dtstart", Moment(times.0)), ("dtend", Moment(times.1)), ("description", body)];
    assert doc.event == EventAdditions(records) + tail;
    OneEntryPerRecord(records);
    CountKeyAppend(EventAdditions(records), tail, "summary");
    CountKeyAppend(EventAdditions(records), tail, "location");
    CountKeyAbsent(tail, "summary");
    CountKeyAbsent(tail, "location");
  }

  lemma {:induction false} CountKeyAbsent(entries: seq<Entry>, key: string)
    requires forall i :: 0 <= i < |entries| ==> entries[i].0 != key
    ensures CountKey(entries, key) == 0
  {
    if entries != [] {
      CountKeyAbsent(entries[..|entries| - 1], key);
    }
  }
}
