# tnef2ics in Dafny

A model of `tnef2ics.py`. The script turns a TNEF `winmail.dat` meeting invite into an iCalendar file. The model covers the two parts of the script that hold logic:

- **`parse_tz`** (module `TimeZones`, file `timezones.dfy`). It reads a time-zone description such as `"(UTC-05:00) Eastern Time"` and returns the fixed offset it names, in minutes.
  - `re.search` becomes an explicit left-to-right search for the nine-character pattern `UTC[+-]DD:DD`.
  - `lstrip('0')` and `int(...) if ... else 0` are modelled as written.
  - `datetime.timezone` becomes `MakeTimezone`. It raises `ValueError` for offsets of a whole day or more, and the regular expression lets such offsets through (`UTC+25:00`).
  - The result is `Outcome<Option<int>>`:
    - `Ok(None)` when nothing matches. This is different from a zero offset.
    - `Ok(Some(m))` for a zone of `m` minutes.
    - `Raised(ValueError)` when the offset is out of range.
- **The script body** (module `Invite`, file `invite.dfy`), which is imperative.
  - `ScanProperties` models the `for value in tnefobj.mapiprops` loop. Each match overwrites one of the variables `tzstring`, `starttime`, `endtime`, `orgname` and `orgemail`. Each subject or location record is `add`ed to the event.
  - `AttachZone` models the block that gives both timestamps the zone `parse_tz` returns and adds them as DTSTART and DTEND.
  - `Convert` runs the script from `Calendar()` to `add_component`.
  - The icalendar `Calendar` and `Event` objects become the class `Component`, whose `Add` appends a `(key, value)` pair.
  - Python's run-time failures become `Outcome` values:
    - `NameError` for a variable that no record bound.
    - `TypeError` for a value of the wrong type, such as a description that is not a string or a start date that is a string.
    - `AttributeError` for a start or end date whose value has no `replace` method at all.
    - `ValueError` from `datetime.timezone`.

`outcomes.dfy` holds `Option`, the exception kinds and `Outcome`.

What the script does, as modelled:
- There is no HTML-to-text step. The event description is `tnefobj.body` verbatim.
- There is no fixed-UTC policy. Both timestamps get whatever `parse_tz` returns: a fixed offset, or no zone (naive times) when the description has no `UTC±HH:MM`.
- An out-of-range offset raises `ValueError`. It is not treated as "no offset".
- Repeated subject or location records are all added to the event, in scan order. They do not follow last-one-wins. Only the five variables follow last-one-wins.
- The sender literal at line 63 ends in a stray `"`. So `orgemail` is never bound by a real `MAPI_SENDER_EMAIL_ADDRESS` property (`SenderNeverResolved`).
- No organizer is ever written: `orgname` and `orgemail` are not used after the scan.
- The guard `timezone != ''` compares the `datetime.timezone` class with a string. It always holds, so the zone block always runs.
- The `try`/`except` around `lstrip` cannot fire on digit strings, so its `return None` branch is dead and is not modelled.

## Model

| member | source | states |
|---|---|---|
| `TimeZones.SearchFrom` | tnef2ics.py:24-25 | with `MatchesAt(s, i)` the pattern `UTC[+-]DD:DD` at index `i`, the scan returns a matching start index at or after `from`, no earlier index from `from` on matches, and it returns none only when no index from `from` on matches |
| `TimeZones.Search` | tnef2ics.py:25-26 | `re.search` finds nothing exactly when the pattern occurs nowhere, and otherwise reports the leftmost match |
| `TimeZones.SearchIsLeftmost` | tnef2ics.py:25 | the leftmost match is the match reported |
| `TimeZones.StripTwoDigits` | tnef2ics.py:29-30 | `LStrip` (`lstrip('0')`) empties a two-digit group only when it is "00", and otherwise leaves digits whose `DecimalValue` (the value `int` reads) is the group's |
| `TimeZones.GroupValue` | tnef2ics.py:34-35 | a stripped group, counted as 0 when empty, is worth 10 times its first digit plus its second |
| `TimeZones.MatchedOffset` | tnef2ics.py:27-37 | a match spells out 60·HH + MM minutes, negated exactly when the sign is '-' |
| `TimeZones.MakeTimezone` | tnef2ics.py:37 | `datetime.timezone` yields the offset exactly when it is strictly within a day, and otherwise raises ValueError |
| `TimeZones.ParseTz` | tnef2ics.py:23-37 | the result is `None` (not a zero offset) exactly when no `UTC±DD:DD` occurs; any offset returned lies strictly within a day; the only exception is ValueError, raised only when there is a match |
| `TimeZones.LeftmostMatchDecides` | tnef2ics.py:24-37 | the result is `timezone(±(60·HH + MM))` built from the digits of the leftmost match |
| `TimeZones.LaterTextIgnored` | tnef2ics.py:24-25 | appending any text to a string that already contains a match does not change the result, so later offsets are never consulted |
| `TimeZones.SignNegates` | tnef2ics.py:37 | turning the leftmost match's '+' into '-' negates the offset, and an out-of-range match raises under both signs |
| `TimeZones.OffsetTextRoundTrip` | tnef2ics.py:23-37 | every offset `datetime.timezone` accepts, written as `UTC±HH:MM`, parses back to itself; "UTC+00:00" gives offset 0, not `None` |
| `TimeZones.SampleNegative` | tnef2ics.py:34-37 | "UTC-05:00 note" gives -300 minutes |
| `TimeZones.SampleZeroHours` | tnef2ics.py:29-35 | "UTC+00:30" gives +30 minutes: the hour group strips to empty and counts as 0 |
| `TimeZones.SampleTwoOffsets` | tnef2ics.py:24-25 | "(UTC+01:00) UTC-08:00" gives +60 minutes: only the first offset counts |
| `TimeZones.SampleTooLarge` | tnef2ics.py:34-37 | "UTC+25:00" matches the pattern, and `datetime.timezone` raises ValueError for it |
| `TimeZones.SampleNoMatch` | tnef2ics.py:24-26 | "UTC+5:00" (a one-digit hour) does not match and gives `None` |
| `TimeZones.SampleNoOffset` | tnef2ics.py:26 | "no timezone here" gives `None` |
| `Invite.Component.constructor` | tnef2ics.py:20-21 | a new calendar or event has no properties |
| `Invite.Component.Add` | tnef2ics.py:52 | `add` appends the pair and keeps earlier values of the same key |
| `Invite.UnboundIffAbsent` | tnef2ics.py:50-62 | `LastData(records, name)` is the data of the last record called `name`; a variable stays unbound after the loop exactly when no record carries its name |
| `Invite.LastMatchWins` | tnef2ics.py:55-62 | when record `i` is the last with a name, the variable for that name holds record `i`'s data |
| `Invite.LastDataExtend` | tnef2ics.py:55-64 | one more record rebinds a variable exactly when the record has that variable's name, and leaves it unchanged otherwise |
| `Invite.AdditionsExtend` | tnef2ics.py:51-54 | one more record adds its own summary or location after those already added |
| `Invite.ScanProperties` | tnef2ics.py:50-64 | the result equals `Resolve(records)` and the event grows by `EventAdditions(records)`: the loop leaves each variable holding the data of the last record with its name (unbound when there is none) and appends to the event exactly the summaries and locations of the records, in scan order |
| `Invite.AdditionsInScanOrder` | tnef2ics.py:50-54 | the additions for records `a` then `b` are those of `a` followed by those of `b` |
| `Invite.AddedCounts` | tnef2ics.py:51-54 | one record adds one SUMMARY if it is a subject, one LOCATION if it is a location, and nothing otherwise |
| `Invite.OneEntryPerRecord` | tnef2ics.py:51-54 | the loop adds exactly one SUMMARY per MAPI_SUBJECT record and one LOCATION per MAPI_OUTLOOK_LOCATION record, and nothing else |
| `Invite.IgnoredRecord` | tnef2ics.py:50-64 | a record with any other name changes neither the variables nor the event |
| `Invite.SenderNeverResolved` | tnef2ics.py:63-64 | no record whose name has no quote in it, MAPI_SENDER_EMAIL_ADDRESS included, ever binds `orgemail` |
| `Invite.SenderAddressIgnored` | tnef2ics.py:63-64 | a record named MAPI_SENDER_EMAIL_ADDRESS, the name the sender's address arrives under, leaves `orgemail` as it was |
| `Invite.LastDescriptionWins` | tnef2ics.py:55-56 | of two time-zone descriptions, the second is kept |
| `Invite.RepeatedSubjectAddsBoth` | tnef2ics.py:51-52 | two subject records add two SUMMARY values, in scan order |
| `Invite.Replace` | tnef2ics.py:71-72 | `replace(tzinfo=tz)` succeeds exactly on a bound `datetime`, keeps its wall-clock value and sets only the zone; otherwise it raises NameError for an unbound variable, TypeError for a string or bytes value, and AttributeError for a value with no `replace` method |
| `Invite.ZoneOf` | tnef2ics.py:70 | `parse_tz(tzstring)` succeeds exactly when `tzstring` is a bound string that `parse_tz` accepts, with `parse_tz`'s result; otherwise it raises NameError when `tzstring` is unbound and TypeError when it is bound to anything but a string; for a bound string the outcome, success or ValueError, is exactly `parse_tz`'s |
| `Invite.Attach` | tnef2ics.py:69-72 | the block succeeds exactly when the description parses and both dates are bound `datetime`s; then start and end get the same zone, the one `parse_tz` returns, and keep their wall-clock values; an error from the description comes first, then the error `replace` raises on the start date, then the one it raises on the end date |
| `Invite.AttachZone` | tnef2ics.py:69-75 | the block returns what `Attach` specifies and on success appends DTSTART then DTEND; on an exception the event is unchanged |
| `Invite.Convert` | tnef2ics.py:20-79 | the result equals `Conversion(records, body)`: the script yields the calendar header (PRODID, VERSION 2.0) and an event holding the scanned summaries and locations, DTSTART, DTEND and the body as DESCRIPTION, or the exception that stops it |
| `Invite.MissingPropertyAborts` | tnef2ics.py:69-75 | without a description, a start date or an end date the script raises, so no file is written; a missing description raises NameError on `tzstring` |
| `Invite.SameZoneOnBothTimes` | tnef2ics.py:69-75 | in a written calendar, DTSTART and DTEND carry the same zone: the one `parse_tz` gives for the last description, and no zone exactly when that description has no `UTC±HH:MM` |
| `Invite.SummariesCounted` | tnef2ics.py:50-77 | a written event holds one SUMMARY per MAPI_SUBJECT record and one LOCATION per MAPI_OUTLOOK_LOCATION record |

## Left out

- Command-line handling and the default output name `invite.ics` (tnef2ics.py:10-18): argument plumbing.
- Reading `winmail.dat` and writing the `.ics` file (tnef2ics.py:40-41, 83-84): file I/O. The model's result is what would be serialised, or the exception that prevents the write.
- TNEF decoding (`TNEF(...)`): a foreign library. Its output is a parameter: the property records as `(name, data)` pairs, and the message body as an opaque value.
- iCalendar serialisation (`to_ical`) and how icalendar encodes values: a foreign library. `add` is modelled as appending a pair. `add_component` is modelled as pairing the calendar's properties with the event's.
- `datetime` internals: a timestamp is an opaque naive value with an optional offset. Only `replace(tzinfo=...)` is modelled.
- TimeZones.MatchesAt: `\d` is modelled as the ASCII digits 0-9. Python's `\d` on `str`, and `int`, also accept other Unicode decimal digits.
- Invite.Data: property values are modelled as text, `datetime`, bytes, or a scalar with no `replace` method (`int`, `float`, `None`). Other Python types that do have a `replace` method are not distinguished.
- Invite.Convert: after an exception, the partly filled event object is not returned. The script discards it too, because it dies before writing.
- Exceptions raised inside the TNEF and icalendar libraries are not modelled.
