/**
  The calendar: one event per request, with a title marked by status, a start
  time taken from the checkout date and time, an end three hours later, and
  a colour per status.

  Times are minutes since the epoch.  Date parsing is not modelled: `dayOf`
  gives the minute at which the local day of a `checkout_date` value starts,
  or `None` for a value that is not a valid date.
 */
module Calendar {
  import opened Values

  /** `request.properties?.property_name || 'Property Cleaning'` */
  function BaseTitle(request: Record): (t: Value)
    ensures Truthy(t)
    ensures Truthy(Member(Get(request, "properties"), "property_name")) ==> t == Member(Get(request, "properties"), "property_name")
    ensures !Truthy(Member(Get(request, "properties"), "property_name")) ==> t == Str("Property Cleaning")
  {
    Or(Member(Get(request, "properties"), "property_name"), Str("Property Cleaning"))
  }

  /** The event title: a cleaner's pending request is marked with a bell, an approved one
      with a broom, a completed one with a tick; every other title, a landlord's pending
      request included, is the base title unchanged. */
  function Title(request: Record, userType: string): (t: Value)
    ensures var base := BaseTitle(request);
      var status := Get(request, "status");
      && (userType == "cleaner" && status == Str("pending") ==> t == Str("\U{1F514} " + Show(base) + " (Pending)"))
      && (status == Str("approved") ==> t == Str("\U{1F9F9} " + Show(base)))
      && (status == Str("completed") ==> t == Str("\U{2705} " + Show(base) + " (Completed)"))
      && (status != Str("approved") && status != Str("completed") && (userType != "cleaner" || status != Str("pending")) ==> t == base)
  {
    var base := BaseTitle(request);
    var status := Get(request, "status");
    if userType == "cleaner" && status == Str("pending") then Str("\U{1F514} " + Show(base) + " (Pending)")
    else if status == Str("approved") then Str("\U{1F9F9} " + Show(base))
    else if status == Str("completed") then Str("\U{2705} " + Show(base) + " (Completed)")
    else base
  }

  /** A landlord's pending request keeps its plain title. */
  lemma LandlordPendingUnmarked(request: Record)
    requires Get(request, "status") == Str("pending")
    ensures Title(request, "landlord") == BaseTitle(request)
  {
  }

  /** The position of the first `c` in `s`. */
  function IndexOf(s: string, c: char): (r: Option<nat>)
    ensures r.None? ==> c !in s
    ensures r.Some? ==> r.value < |s| && s[r.value] == c && c !in s[..r.value]
  {
    if s == [] then None
    else if s[0] == c then Some(0)
    else
      var r := IndexOf(s[1..], c);
      if r.None? then None
      else
        assert s[..r.value + 1] == [s[0]] + s[1..][..r.value];
        Some(r.value + 1)
  }

  /** `const [hours, minutes] = s.split(':')`: the text before the first colon (all of it
      when there is none) and the text between the first and second colon (`undefined`,
      here `None`, when there is no colon). */
  function SplitClock(s: string): (parts: (string, Option<string>))
  {
    match IndexOf(s, ':')
    case None => (s, None)
    case Some(i) =>
      var rest := s[i + 1..];
      match IndexOf(rest, ':')
      case None => (s[..i], Some(rest))
      case Some(j) => (s[..i], Some(rest[..j]))
  }

  predicate IsDigit(c: char)
  {
    '0' <= c <= '9'
  }

  /** Every character is a decimal digit. */
  predicate AllDigits(s: string)
  {
    forall i :: 0 <= i < |s| ==> IsDigit(s[i])
  }

  /** The number spelled by the run of decimal digits `s` starts with, read from the left
      after the digits already read spelled `acc`. */
  function Accumulate(acc: nat, s: string): nat
    decreases |s|
  {
    if s == [] || !IsDigit(s[0]) then acc
    else Accumulate(acc * 10 + (s[0] as int - '0' as int), s[1..])
  }

  /** The number spelled by the run of decimal digits `s` starts with (0 for none). */
  function DecimalValue(s: string): nat
  {
    Accumulate(0, s)
  }

  /** `parseInt(s)`: leading white space skipped, an optional sign, then the longest run of
      decimal digits; `None` (NaN) when there is no digit. */
  function ParseInt(s: string): Option<int>
  {
    SignedDecimal(s[LeadingSpaces(s)..])
  }

  /** An optional sign, then the longest run of decimal digits. */
  function SignedDecimal(t: string): Option<int>
  {
    if |t| > 0 && t[0] == '-' then Negated(LeadingDecimal(t[1..]))
    else if |t| > 0 && t[0] == '+' then LeadingDecimal(t[1..])
    else LeadingDecimal(t)
  }

  function Negated(v: Option<int>): Option<int>
  {
    if v.None? then None else Some(-v.value)
  }

  /** The number the run of digits `u` starts with spells; `None` when it starts with none. */
  function LeadingDecimal(u: string): Option<int>
  {
    if u == [] || !IsDigit(u[0]) then None else Some(DecimalValue(u))
  }

  /** A string that starts with a digit parses to the number its leading digits spell. */
  lemma ParseIntDigits(s: string)
    requires s != [] && IsDigit(s[0])
    ensures ParseInt(s) == Some(DecimalValue(s))
  {
    assert LeadingSpaces(s) == 0;
    assert s[0..] == s;
  }

  /** `setHours(parseInt(hours), parseInt(minutes))` on the checkout day; 10:00 when there is
      no checkout time; `None` for an invalid date. */
  function StartMinutes(request: Record, dayOf: Value -> Option<int>): Option<int>
  {
    var day := dayOf(Get(request, "checkout_date"));
    var time := Get(request, "checkout_time");
    if day.None? then None
    else if !Truthy(time) then Some(day.value + 10 * 60)
    else if !time.Str? then None
    else
      var offset := ClockOffset(SplitClock(time.s));
      if offset.None? then None else Some(day.value + offset.value)
  }

  /** The minutes `setHours(parseInt(hours), parseInt(minutes))` puts after the start of
      the day; `None` when either part is not a number. */
  function ClockOffset(parts: (string, Option<string>)): Option<int>
  {
    var h := ParseInt(parts.0);
    var m := if parts.1.Some? then ParseInt(parts.1.value) else None;
    if h.None? || m.None? then None else Some(h.value * 60 + m.value)
  }

  /** Without a checkout time the cleaning starts at ten on the checkout day. */
  lemma DefaultStart(request: Record, dayOf: Value -> Option<int>, day: int)
    requires dayOf(Get(request, "checkout_date")) == Some(day)
    requires !Truthy(Get(request, "checkout_time"))
    ensures StartMinutes(request, dayOf) == Some(day + 600)
  {
  }

  /** A checkout time whose parts are `hh` and `mm`, both digit strings, starts the cleaning
      `hh` hours and `mm` minutes into the checkout day (with `SplitClockAt`: a checkout
      time `HH:MM` of digits). */
  lemma ClockStart(request: Record, dayOf: Value -> Option<int>, day: int, time: string, hh: string, mm: string)
    requires dayOf(Get(request, "checkout_date")) == Some(day)
    requires Get(request, "checkout_time") == Str(time) && SplitClock(time) == (hh, Some(mm))
    requires hh != [] && IsDigit(hh[0])
    requires mm != [] && IsDigit(mm[0])
    ensures StartMinutes(request, dayOf) == Some(day + DecimalValue(hh) * 60 + DecimalValue(mm))
  {
    var t := Get(request, "checkout_time");
    assert Truthy(t) by {
      assert SplitClock([]).1 == None;
    }
    assert ClockOffset(SplitClock(t.s)) == Some(DecimalValue(hh) * 60 + DecimalValue(mm)) by {
      assert SplitClock(t.s) == (hh, Some(mm));
      ClockOffsetDigits(hh, mm);
    }
  }

  /** Two digit strings give `hh` hours and `mm` minutes. */
  lemma ClockOffsetDigits(hh: string, mm: string)
    requires hh != [] && IsDigit(hh[0])
    requires mm != [] && IsDigit(mm[0])
    ensures ClockOffset((hh, Some(mm))) == Some(DecimalValue(hh) * 60 + DecimalValue(mm))
  {
    ParseIntDigits(hh);
    ParseIntDigits(mm);
    assert ParseInt(hh) == Some(DecimalValue(hh)) && ParseInt(mm) == Some(DecimalValue(mm));
  }

  /** A checkout time `HH:MM` of digits starts the cleaning `HH` hours and `MM` minutes
      into the checkout day. */
  lemma ClockStartAt(request: Record, dayOf: Value -> Option<int>, day: int, hh: string, mm: string)
    requires dayOf(Get(request, "checkout_date")) == Some(day)
    requires Get(request, "checkout_time") == Str(hh + ":" + mm)
    requires hh != [] && AllDigits(hh)
    requires mm != [] && AllDigits(mm)
    ensures StartMinutes(request, dayOf) == Some(day + DecimalValue(hh) * 60 + DecimalValue(mm))
  {
    var time := hh + ":" + mm;
    NoColonInDigits(hh);
    NoColonInDigits(mm);
    SplitClockAt(hh, mm);
    ClockStart(request, dayOf, day, time, hh, mm);
  }

  lemma NoColonInDigits(s: string)
    requires AllDigits(s)
    ensures ':' !in s
  {
  }

  /** Splitting `hh:mm` at its one colon gives both halves. */
  lemma SplitClockAt(hh: string, mm: string)
    requires ':' !in hh && ':' !in mm
    ensures SplitClock(hh + ":" + mm) == (hh, Some(mm))
  {
    var s := hh + ":" + mm;
    IndexOfAfter(hh, ':', ":" + mm);
    assert s[..|hh|] == hh;
    assert s[|hh| + 1..] == mm;
  }

  lemma {:induction false} IndexOfAfter(a: string, c: char, b: string)
    requires c !in a && b != [] && b[0] == c
    ensures IndexOf(a + b, c) == Some(|a|)
    decreases |a|
  {
    if a != [] {
      assert (a + b)[1..] == a[1..] + b;
      IndexOfAfter(a[1..], c, b);
    }
  }

  /** `'0' + n` as two digits, for `n` below 100. */
  function TwoDigits(n: nat): (s: string)
    requires n < 100
    ensures |s| == 2 && forall i :: 0 <= i < 2 ==> IsDigit(s[i])
  {
    [DigitChar(n / 10), DigitChar(n % 10)]
  }

  /** Two digits spell the number they were written from. */
  lemma TwoDigitsValue(n: nat)
    requires n < 100
    ensures DecimalValue(TwoDigits(n)) == n
  {
    var s := TwoDigits(n);
    assert s[1..][1..] == [];
    assert Accumulate(n / 10, s[1..]) == n;
  }

  /** A checkout time written as two-digit hours and minutes starts the cleaning that many
      hours and minutes into the checkout day. */
  lemma WrittenTimeStart(request: Record, dayOf: Value -> Option<int>, day: int, h: nat, m: nat)
    requires h < 100 && m < 100
    requires dayOf(Get(request, "checkout_date")) == Some(day)
    requires Get(request, "checkout_time") == Str(TwoDigits(h) + ":" + TwoDigits(m))
    ensures StartMinutes(request, dayOf) == Some(day + h * 60 + m)
  {
    var hh, mm := TwoDigits(h), TwoDigits(m);
    assert DecimalValue(hh) == h by { TwoDigitsValue(h); }
    assert DecimalValue(mm) == m by { TwoDigitsValue(m); }
    ClockStartAt(request, dayOf, day, hh, mm);
  }

  /** `end.setHours(start.getHours() + 3)`: three hours after the start. */
  function EndMinutes(start: Option<int>): (end: Option<int>)
    ensures end.Some? <==> start.Some?
    ensures end.Some? ==> end.value - start.value == 180
  {
    if start.None? then None else Some(start.value + 3 * 60)
  }

  datatype CalendarEvent = CalendarEvent(
    id: Value,
    title: Value,
    start: Option<int>,
    end: Option<int>,
    resource: Record,
    className: string)

  /** The event of one request. */
  function EventOf(request: Record, userType: string, dayOf: Value -> Option<int>): (e: CalendarEvent)
    ensures e.id == Get(request, "id") && e.resource == request
    ensures e.className == "rbc-event-" + Show(Get(request, "status"))
    ensures e.start == StartMinutes(request, dayOf) && e.end == EndMinutes(e.start)
    ensures e.title == Title(request, userType)
  {
    var start := StartMinutes(request, dayOf);
    CalendarEvent(Get(request, "id"), Title(request, userType), start, EndMinutes(start), request, "rbc-event-" + Show(Get(request, "status")))
  }

  /** `calendarEvents`: one event per request, in the same order. */
  function Events(requests: seq<Record>, userType: string, dayOf: Value -> Option<int>): (es: seq<CalendarEvent>)
    ensures |es| == |requests|
    ensures forall i :: 0 <= i < |es| ==> es[i] == EventOf(requests[i], userType, dayOf)
  {
    seq(|requests|, i requires 0 <= i < |requests| => EventOf(requests[i], userType, dayOf))
  }

  /** Every event ends three hours after it starts, and each event's id and class name come
      from its own request. */
  lemma EventsShape(requests: seq<Record>, userType: string, dayOf: Value -> Option<int>)
    ensures forall i :: 0 <= i < |requests| ==>
      var e := Events(requests, userType, dayOf)[i];
      && e.id == Get(requests[i], "id")
      && e.className == "rbc-event-" + Show(Get(requests[i], "status"))
      && (e.start.Some? <==> e.end.Some?)
      && (e.start.Some? ==> e.end.value == e.start.value + 180)
  {
  }

  /** The inline style `eventStyleGetter` returns. */
  datatype EventStyle = EventStyle(backgroundColor: string, borderColor: string, color: string, border: string, borderRadius: string)

  /** The colour of a request status. */
  function StatusBackground(status: Value): string
  {
    if status == Str("pending") then "#f59e0b"
    else if status == Str("approved") then "#10b981"
    else if status == Str("completed") then "#6b7280"
    else if status == Str("declined") then "#ef4444"
    else "#3b82f6"
  }

  /** `eventStyleGetter`: the status colour as background and border; any status other
      than the four named ones is blue. */
  function StyleOf(e: CalendarEvent): (s: EventStyle)
    ensures s.borderColor == s.backgroundColor
    ensures s.backgroundColor in {"#f59e0b", "#10b981", "#6b7280", "#ef4444", "#3b82f6"}
    ensures var status := Get(e.resource, "status");
      s.backgroundColor == "#3b82f6" <==> status !in {Str("pending"), Str("approved"), Str("completed"), Str("declined")}
    ensures s.color == "white" && s.border == "none" && s.borderRadius == "4px"
  {
    var bg := StatusBackground(Get(e.resource, "status"));
    EventStyle(bg, bg, "white", "none", "4px")
  }
}
