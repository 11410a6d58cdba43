/**
 * Weekly availability of a tutoring session: for each day of the week, the
 * four-hour slots in which the tutor can be booked. Covers the sanitising of
 * untrusted stored data, the slot toggle used by the editing dialogs, the
 * time-to-slot lookup, the expansion of a slot into one-hour booking times and
 * the display summaries.
 */
module Availability {

  import opened Common

  datatype Day = Monday | Tuesday | Wednesday | Thursday | Friday | Saturday | Sunday

  /** The four bookable ranges, in the order of the day. */
  datatype Slot = Morning | Midday | Afternoon | Evening

  /** Days absent from the map have no availability. */
  type AvailableHours = map<Day, seq<Slot>>

  const AllDays: seq<Day> := [Monday, Tuesday, Wednesday, Thursday, Friday, Saturday, Sunday]
  const AllSlots: seq<Slot> := [Morning, Midday, Afternoon, Evening]

  function DayIndex(d: Day): (i: nat)
    ensures i < 7
  {
    match d
    case Monday => 0
    case Tuesday => 1
    case Wednesday => 2
    case Thursday => 3
    case Friday => 4
    case Saturday => 5
    case Sunday => 6
  }

  lemma DayIndexInjective(d: Day)
    ensures forall e :: DayIndex(e) == DayIndex(d) ==> e == d
  {
  }

  lemma AllDaysListed()
    ensures forall d :: d in AllDays
    ensures forall i :: 0 <= i < 7 ==> DayIndex(AllDays[i]) == i
  {
    forall d ensures d in AllDays {
      assert AllDays[DayIndex(d)] == d;
    }
  }

  /** The key under which a day is stored. */
  function DayKey(d: Day): string {
    match d
    case Monday => "monday"
    case Tuesday => "tuesday"
    case Wednesday => "wednesday"
    case Thursday => "thursday"
    case Friday => "friday"
    case Saturday => "saturday"
    case Sunday => "sunday"
  }

  lemma DayKeyInjective(a: Day, b: Day)
    requires DayKey(a) == DayKey(b)
    ensures a == b
  {
  }

  function SlotIndex(s: Slot): (i: nat)
    ensures i < 4
  {
    match s
    case Morning => 0
    case Midday => 1
    case Afternoon => 2
    case Evening => 3
  }

  lemma SlotIndexInjective(a: Slot, b: Slot)
    requires SlotIndex(a) == SlotIndex(b)
    ensures a == b
  {
  }

  // ---------------------------------------------------------------------
  // Times of the form "HH:00"
  // ---------------------------------------------------------------------

  /** `h.toString().padStart(2, '0')` for an hour below 100. */
  function TwoDigits(h: nat): (r: string)
    requires h < 100
    ensures |r| == 2
  {
    [DigitChar(h / 10), DigitChar(h % 10)]
  }

  /** `${hh}:00` */
  function HourLabel(h: nat): (r: string)
    requires h < 100
    ensures |r| == 5 && r[2..] == ":00"
  {
    TwoDigits(h) + ":00"
  }

  /** `parseInt` of a two-digit string. */
  function ParseTwoDigits(s: string): (h: nat)
    requires |s| == 2 && '0' <= s[0] <= '9' && '0' <= s[1] <= '9'
    ensures h < 100
  {
    (s[0] as int - '0' as int) * 10 + (s[1] as int - '0' as int)
  }

  lemma ParseTwoDigitsOfTwoDigits(h: nat)
    requires h < 100
    ensures ParseTwoDigits(TwoDigits(h)) == h
  {
  }

  /** On "HH:00" labels, string order is hour order. */
  lemma HourLabelOrder(a: nat, b: nat)
    requires a < 100 && b < 100
    ensures LexLt(HourLabel(a), HourLabel(b)) <==> a < b
  {
    var la, lb := HourLabel(a), HourLabel(b);
    if a / 10 != b / 10 {
      assert la[0] != lb[0];
    } else if a % 10 != b % 10 {
      assert la[0] == lb[0] && la[1] != lb[1];
      assert la[1..][0] == la[1] && lb[1..][0] == lb[1];
    } else {
      assert a == b;
      LexLtIrreflexive(la);
    }
  }

  /** The five slot boundaries: 06:00, 10:00, 14:00, 18:00 and 22:00. */
  function Boundary(k: nat): (r: string)
    requires k <= 4
    ensures |r| == 5
  {
    if k == 0 then "06:00"
    else if k == 1 then "10:00"
    else if k == 2 then "14:00"
    else if k == 3 then "18:00"
    else "22:00"
  }

  function BoundaryHour(k: nat): (h: nat)
    requires k <= 4
    ensures 6 <= h <= 22
  {
    6 + 4 * k
  }

  lemma BoundaryIsHourLabel(k: nat)
    requires k <= 4
    ensures Boundary(k) == HourLabel(BoundaryHour(k))
    ensures ParseTwoDigits(Boundary(k)[..2]) == BoundaryHour(k)
  {
    if k == 0 {
      assert HourLabel(6) == "06:00";
    } else if k == 1 {
      assert HourLabel(10) == "10:00";
    } else if k == 2 {
      assert HourLabel(14) == "14:00";
    } else if k == 3 {
      assert HourLabel(18) == "18:00";
    } else {
      assert HourLabel(22) == "22:00";
    }
  }

  /** Boundaries are in increasing string order. */
  lemma BoundaryOrder(i: nat, j: nat)
    requires i <= 4 && j <= 4
    ensures LexLt(Boundary(i), Boundary(j)) <==> i < j
  {
    BoundaryIsHourLabel(i);
    BoundaryIsHourLabel(j);
    HourLabelOrder(BoundaryHour(i), BoundaryHour(j));
  }

  function SlotStart(s: Slot): string {
    Boundary(SlotIndex(s))
  }

  function SlotEnd(s: Slot): string {
    Boundary(SlotIndex(s) + 1)
  }

  /** The stored text of a slot, e.g. "14:00-18:00". */
  function SlotText(s: Slot): (r: string)
    ensures |r| == 11 && r[..5] == SlotStart(s) && r[5] == '-' && r[6..] == SlotEnd(s)
  {
    SlotStart(s) + "-" + SlotEnd(s)
  }

  /** The stored texts are distinct, and `Array.prototype.sort` on them (string
      order) agrees with the order of the day. */
  lemma SlotTextOrder(a: Slot, b: Slot)
    ensures LexLt(SlotText(a), SlotText(b)) <==> SlotIndex(a) < SlotIndex(b)
    ensures SlotText(a) == SlotText(b) ==> a == b
  {
    var ta, tb := SlotText(a), SlotText(b);
    BoundaryOrder(SlotIndex(a), SlotIndex(b));
    if SlotIndex(a) != SlotIndex(b) {
      LexLtTotal(SlotStart(a), SlotStart(b));
      assert ta[..5] != tb[..5] by {
        if SlotStart(a) == SlotStart(b) {
          BoundaryOrder(SlotIndex(b), SlotIndex(a));
        }
      }
      LexPrefixDecides(ta, tb, 5);
    } else {
      SlotIndexInjective(a, b);
      LexLtIrreflexive(ta);
    }
  }

  /** When two strings differ within their first n characters, that prefix alone
      decides their order. */
  lemma {:induction false} LexPrefixDecides(a: string, b: string, n: nat)
    requires n <= |a| && n <= |b| && a[..n] != b[..n]
    ensures LexLt(a, b) <==> LexLt(a[..n], b[..n])
  {
    if a[0] == b[0] {
      assert a[1..][..n - 1] == a[..n][1..] && b[1..][..n - 1] == b[..n][1..];
      LexPrefixDecides(a[1..], b[1..], n - 1);
    }
  }

  /** The slot whose stored text is s, if any (`validSlots.includes(s)`). */
  function ParseSlot(s: string): (r: Option<Slot>)
    ensures r.Some? <==> exists slot :: SlotText(slot) == s
    ensures r.Some? ==> SlotText(r.value) == s
  {
    if s == SlotText(Morning) then Some(Morning)
    else if s == SlotText(Midday) then Some(Midday)
    else if s == SlotText(Afternoon) then Some(Afternoon)
    else if s == SlotText(Evening) then Some(Evening)
    else None
  }

  lemma ParseSlotText(slot: Slot)
    ensures ParseSlot(SlotText(slot)) == Some(slot)
  {
    var other := ParseSlot(SlotText(slot));
    if other != Some(slot) {
      SlotTextOrder(slot, other.value);
    }
  }

  // ---------------------------------------------------------------------
  // Sanitising stored availability (validateAvailableHours)
  // ---------------------------------------------------------------------

  /** An untrusted JSON value, as it comes out of the stored column. */
  datatype Json =
    | JNull
    | JBool(b: bool)
    | JNumber(n: int)
    | JString(str: string)
    | JArray(items: seq<Json>)
    | JObject(fields: map<string, Json>)

  /** The slots among the items, in item order, duplicates kept; everything that is
      not one of the four slot strings is dropped. */
  function ValidSlots(items: seq<Json>): (r: seq<Slot>)
    ensures |r| <= |items|
    ensures forall slot :: slot in r <==> JString(SlotText(slot)) in items
  {
    if items == [] then []
    else
      var rest := ValidSlots(items[1..]);
      assert items == [items[0]] + items[1..];
      forall slot ensures JString(SlotText(slot)) == items[0] <==> items[0].JString? && ParseSlot(items[0].str) == Some(slot) {
        ParseSlotText(slot);
      }
      match items[0]
      case JString(s) =>
        (match ParseSlot(s)
         case Some(slot) => [slot] + rest
         case None => rest)
      case _ => rest
  }

  /** What the sanitiser keeps for one day of the given value. */
  function SanitizedDay(hours: Json, d: Day): seq<Slot> {
    if hours.JObject? && DayKey(d) in hours.fields && hours.fields[DayKey(d)].JArray? then
      ValidSlots(hours.fields[DayKey(d)].items)
    else []
  }

  /** validateAvailableHours: anything but an object gives the empty map; otherwise
      each of the seven day keys holding an array keeps its valid slots, and a day
      left with none is omitted. Other keys are ignored. */
  method ValidateAvailableHours(hours: Json) returns (r: AvailableHours)
    ensures !hours.JObject? ==> r == map[]
    ensures forall d :: d in r <==> SanitizedDay(hours, d) != []
    ensures forall d :: d in r ==> r[d] == SanitizedDay(hours, d)
  {
    r := map[];
    // null, false, 0 and "" are falsy, other scalars are not objects, and an
    // array has none of the day names as a property
    if !hours.JObject? {
      return;
    }
    AllDaysListed();
    for k := 0 to |AllDays|
      invariant forall d :: d in r <==> DayIndex(d) < k && SanitizedDay(hours, d) != []
      invariant forall d :: d in r ==> r[d] == SanitizedDay(hours, d)
    {
      var day := AllDays[k];
      assert DayIndex(day) == k;
      DayIndexInjective(day);
      var key := DayKey(day);
      if key in hours.fields && hours.fields[key].JArray? {
        var validatedSlots := ValidSlots(hours.fields[key].items);
        if |validatedSlots| > 0 {
          r := r[day := validatedSlots];
        }
      }
    }
  }

  /** The JSON value a map is stored as. */
  function ToJson(h: AvailableHours): (j: Json)
    ensures j.JObject?
    ensures forall d :: DayKey(d) in j.fields <==> d in h
  {
    var fields := map d | d in h :: DayKey(d) := JArray(SlotsToJson(h[d]));
    assert forall d :: d in h ==> DayKey(d) in fields;
    assert forall k :: k in fields ==> exists d :: d in h && DayKey(d) == k;
    forall d | DayKey(d) in fields ensures d in h {
      var e :| e in h && DayKey(e) == DayKey(d);
      DayKeyInjective(d, e);
    }
    JObject(fields)
  }

  function SlotsToJson(slots: seq<Slot>): (r: seq<Json>)
    ensures |r| == |slots|
    ensures forall i :: 0 <= i < |slots| ==> r[i] == JString(SlotText(slots[i]))
  {
    seq(|slots|, i requires 0 <= i < |slots| => JString(SlotText(slots[i])))
  }

  lemma {:induction false} ValidSlotsOfSlots(slots: seq<Slot>)
    ensures ValidSlots(SlotsToJson(slots)) == slots
  {
    if slots != [] {
      ValidSlotsOfSlots(slots[1..]);
      SlotsToJsonCons(slots);
      ValidSlotsCons(slots[0], SlotsToJson(slots[1..]));
    }
  }

  lemma SlotsToJsonCons(slots: seq<Slot>)
    requires slots != []
    ensures SlotsToJson(slots) == [JString(SlotText(slots[0]))] + SlotsToJson(slots[1..])
  {
  }

  /** A stored slot text in front is kept in front. */
  lemma ValidSlotsCons(slot: Slot, rest: seq<Json>)
    ensures ValidSlots([JString(SlotText(slot))] + rest) == [slot] + ValidSlots(rest)
  {
    var items := [JString(SlotText(slot))] + rest;
    ParseSlotText(slot);
    assert items[1..] == rest;
  }

  /** A map with no empty day survives being stored and sanitised again unchanged. */
  lemma SanitizeStored(h: AvailableHours, d: Day)
    requires forall e :: e in h ==> h[e] != []
    ensures SanitizedDay(ToJson(h), d) == if d in h then h[d] else []
  {
    var j := ToJson(h);
    if d in h {
      var e :| e in h && DayKey(e) == DayKey(d) && j.fields[DayKey(d)] == JArray(SlotsToJson(h[e]));
      DayKeyInjective(d, e);
      ValidSlotsOfSlots(h[d]);
    }
  }

  // ---------------------------------------------------------------------
  // Queries
  // ---------------------------------------------------------------------

  /** getSlotsForDay: `hours[day] || []`. */
  function GetSlotsForDay(h: AvailableHours, d: Day): (r: seq<Slot>)
    ensures d in h ==> r == h[d]
    ensures d !in h ==> r == []
  {
    if d in h then h[d] else []
  }

  /** hasAvailabilityOnDay: the day is in the map with at least one slot. */
  function HasAvailabilityOnDay(h: AvailableHours, d: Day): (r: bool)
    ensures r <==> d in h && h[d] != []
  {
    |GetSlotsForDay(h, d)| > 0
  }

  /** The given days that have at least one slot, in the given order. */
  function DaysWithSlots(h: AvailableHours, days: seq<Day>): (r: seq<Day>)
    ensures forall d :: d in r <==> d in days && HasAvailabilityOnDay(h, d)
  {
    if days == [] then []
    else
      var rest := DaysWithSlots(h, days[1..]);
      assert days == [days[0]] + days[1..];
      if HasAvailabilityOnDay(h, days[0]) then [days[0]] + rest else rest
  }

  lemma {:induction false} DaysWithSlotsOrdered(h: AvailableHours, days: seq<Day>)
    requires forall i, j :: 0 <= i < j < |days| ==> DayIndex(days[i]) < DayIndex(days[j])
    ensures forall i, j :: 0 <= i < j < |DaysWithSlots(h, days)| ==>
              DayIndex(DaysWithSlots(h, days)[i]) < DayIndex(DaysWithSlots(h, days)[j])
  {
    if days != [] {
      DaysWithSlotsOrdered(h, days[1..]);
      var rest := DaysWithSlots(h, days[1..]);
      forall k | 0 <= k < |rest| ensures DayIndex(days[0]) < DayIndex(rest[k]) {
        assert rest[k] in rest;
        var m :| 0 <= m < |days[1..]| && days[1..][m] == rest[k];
        assert days[m + 1] == rest[k];
      }
      var r := DaysWithSlots(h, days);
      if HasAvailabilityOnDay(h, days[0]) {
        assert r == [days[0]] + rest;
        forall i, j | 0 <= i < j < |r| ensures DayIndex(r[i]) < DayIndex(r[j]) {
          assert r[j] == rest[j - 1];
          if i > 0 {
            assert r[i] == rest[i - 1];
          }
        }
      } else {
        assert r == rest;
      }
    }
  }

  /** The days with at least one slot, Monday to Sunday. */
  function GetAvailableDays(h: AvailableHours): (r: seq<Day>)
    ensures forall d :: d in r <==> HasAvailabilityOnDay(h, d)
    ensures forall i, j :: 0 <= i < j < |r| ==> DayIndex(r[i]) < DayIndex(r[j])
  {
    AllDaysListed();
    assert forall i :: 0 <= i < 7 ==> DayIndex(AllDays[i]) == i;
    DaysWithSlotsOrdered(h, AllDays);
    DaysWithSlots(h, AllDays)
  }

  function IsAvailabilityEmpty(h: AvailableHours): (r: bool)
    ensures r <==> forall d :: !HasAvailabilityOnDay(h, d)
  {
    var days := GetAvailableDays(h);
    assert days != [] ==> days[0] in days;
    |days| == 0
  }

  // ---------------------------------------------------------------------
  // Time lookup
  // ---------------------------------------------------------------------

  /** isTimeInSlot: `time >= start && time < end`, compared as strings. A time
      inside any slot lies between 06:00 and 22:00. */
  function IsTimeInSlot(time: string, slot: Slot): (r: bool)
    ensures r ==> LexGe(time, Boundary(0)) && LexLt(time, Boundary(4))
  {
    if LexGe(time, SlotStart(slot)) && LexLt(time, SlotEnd(slot)) then
      BoundaryBelow(time, 0, SlotIndex(slot));
      BoundaryAbove(time, SlotIndex(slot) + 1, 4);
      true
    else false
  }

  /** The first slot, in day order, that contains the time. */
  function GetSlotForTime(time: string): (r: Option<Slot>)
    ensures r.Some? ==> IsTimeInSlot(time, r.value)
    ensures r.Some? ==> forall other :: IsTimeInSlot(time, other) ==> other == r.value
    ensures r.None? <==> LexLt(time, Boundary(0)) || LexGe(time, Boundary(4))
  {
    SlotLookupUnique(time);
    SlotLookupRange(time);
    if IsTimeInSlot(time, Morning) then Some(Morning)
    else if IsTimeInSlot(time, Midday) then Some(Midday)
    else if IsTimeInSlot(time, Afternoon) then Some(Afternoon)
    else if IsTimeInSlot(time, Evening) then Some(Evening)
    else None
  }

  /** A time lies in at most one slot. */
  lemma SlotLookupUnique(time: string)
    ensures forall a, b :: IsTimeInSlot(time, a) && IsTimeInSlot(time, b) ==> a == b
  {
    forall a, b | IsTimeInSlot(time, a) && IsTimeInSlot(time, b) ensures a == b {
      if SlotIndex(a) < SlotIndex(b) {
        SlotsDisjoint(time, a, b);
      } else if SlotIndex(b) < SlotIndex(a) {
        SlotsDisjoint(time, b, a);
      } else {
        SlotIndexInjective(a, b);
      }
    }
  }

  /** A time lies in some slot exactly when it is within 06:00 (inclusive) and
      22:00 (exclusive). */
  lemma SlotLookupRange(time: string)
    ensures (exists a :: IsTimeInSlot(time, a)) <==> LexGe(time, Boundary(0)) && LexLt(time, Boundary(4))
  {
    if exists a :: IsTimeInSlot(time, a) {
      var a :| IsTimeInSlot(time, a);
      BoundaryBelow(time, 0, SlotIndex(a));
      BoundaryAbove(time, SlotIndex(a) + 1, 4);
    }
    if LexGe(time, Boundary(0)) && LexLt(time, Boundary(4)) {
      if LexLt(time, Boundary(1)) {
        assert IsTimeInSlot(time, Morning);
      } else if LexLt(time, Boundary(2)) {
        assert IsTimeInSlot(time, Midday);
      } else if LexLt(time, Boundary(3)) {
        assert IsTimeInSlot(time, Afternoon);
      } else {
        assert IsTimeInSlot(time, Evening);
      }
    }
  }

  lemma SlotsDisjoint(time: string, a: Slot, b: Slot)
    requires SlotIndex(a) < SlotIndex(b)
    ensures !(IsTimeInSlot(time, a) && IsTimeInSlot(time, b))
  {
    if IsTimeInSlot(time, a) && IsTimeInSlot(time, b) {
      // time < end(a) <= start(b) <= time
      BoundaryAbove(time, SlotIndex(a) + 1, SlotIndex(b));
    }
  }

  /** A time at or above boundary j is at or above every boundary i <= j. */
  lemma BoundaryBelow(time: string, i: nat, j: nat)
    requires i <= j <= 4
    requires LexGe(time, Boundary(j))
    ensures LexGe(time, Boundary(i))
  {
    if i < j {
      BoundaryOrder(i, j);
      LexGeLtTransitive(time, Boundary(j), Boundary(i));
      LexLtAsymmetric(Boundary(i), time);
    }
  }

  /** A time below boundary i is below every boundary j >= i. */
  lemma BoundaryAbove(time: string, i: nat, j: nat)
    requires i <= j <= 4
    requires LexLt(time, Boundary(i))
    ensures LexLt(time, Boundary(j))
  {
    if i < j {
      BoundaryOrder(i, j);
      LexLtTransitive(time, Boundary(i), Boundary(j));
    }
  }

  // ---------------------------------------------------------------------
  // Hourly expansion
  // ---------------------------------------------------------------------

  function SlotStartHour(s: Slot): (h: nat)
    ensures 6 <= h <= 18
  {
    BoundaryHour(SlotIndex(s))
  }

  /** The hourly booking times of a slot: "HH:00" for each hour from its start up
      to, not including, its end. */
  function HourlySlots(slot: Slot): (r: seq<string>)
    ensures |r| == 4
    ensures forall i :: 0 <= i < 4 ==> r[i] == HourLabel(SlotStartHour(slot) + i)
  {
    var start := SlotStartHour(slot);
    [HourLabel(start), HourLabel(start + 1), HourLabel(start + 2), HourLabel(start + 3)]
  }

  /** generateHourlySlots: reads both hours back from the stored text and pushes one
      label per hour. */
  /** The two hours written in a slot's stored text. */
  lemma SlotTextHours(slot: Slot)
    ensures var text := SlotText(slot);
            && '0' <= text[0] <= '9' && '0' <= text[1] <= '9' && '0' <= text[6] <= '9' && '0' <= text[7] <= '9'
            && ParseTwoDigits(text[..2]) == SlotStartHour(slot)
            && ParseTwoDigits(text[6..8]) == SlotStartHour(slot) + 4
  {
    var text := SlotText(slot);
    BoundaryIsHourLabel(SlotIndex(slot));
    BoundaryIsHourLabel(SlotIndex(slot) + 1);
    assert text[..2] == SlotStart(slot)[..2] && text[6..8] == SlotEnd(slot)[..2];
  }

  method GenerateHourlySlots(slot: Slot) returns (slots: seq<string>)
    ensures slots == HourlySlots(slot)
  {
    var text := SlotText(slot);
    SlotTextHours(slot);
    var startHour := ParseTwoDigits(text[..2]);
    var endHour := ParseTwoDigits(text[6..8]);
    slots := [];
    var hour := startHour;
    while hour < endHour
      invariant startHour <= hour <= endHour
      invariant |slots| == hour - startHour
      invariant forall i :: 0 <= i < |slots| ==> slots[i] == HourLabel(startHour + i)
    {
      slots := slots + [HourLabel(hour)];
      hour := hour + 1;
    }
  }

  /** Every hourly booking time of a slot is looked up back to that slot, and the
      times strictly increase. */
  lemma HourlySlotsInSlot(slot: Slot, i: nat)
    requires i < 4
    ensures GetSlotForTime(HourlySlots(slot)[i]) == Some(slot)
    ensures i < 3 ==> LexLt(HourlySlots(slot)[i], HourlySlots(slot)[i + 1])
  {
    var h := SlotStartHour(slot) + i;
    assert HourlySlots(slot)[i] == HourLabel(h);
    HourInSlot(h, slot);
    if i < 3 {
      assert HourlySlots(slot)[i + 1] == HourLabel(h + 1);
      HourLabelOrder(h, h + 1);
    }
  }

  lemma HourInSlot(h: nat, slot: Slot)
    requires SlotStartHour(slot) <= h < SlotStartHour(slot) + 4
    ensures IsTimeInSlot(HourLabel(h), slot)
  {
    var k := SlotIndex(slot);
    BoundaryIsHourLabel(k);
    BoundaryIsHourLabel(k + 1);
    HourLabelOrder(h, BoundaryHour(k));
    HourLabelOrder(h, BoundaryHour(k + 1));
  }

  /** getBookingSlotsForDay: the hourly times of the day's slots, in list order. */
  function GetBookingSlotsForDay(h: AvailableHours, d: Day): (r: seq<string>)
    ensures |r| == 4 * |GetSlotsForDay(h, d)|
    ensures forall i, m :: 0 <= i < |GetSlotsForDay(h, d)| && 0 <= m < 4 ==>
              r[4 * i + m] == HourlySlots(GetSlotsForDay(h, d)[i])[m]
  {
    var slots := GetSlotsForDay(h, d);
    FlatMapLength(slots, HourlySlots);
    forall i, m | 0 <= i < |slots| && 0 <= m < 4 ensures FlatMap(slots, HourlySlots)[4 * i + m] == HourlySlots(slots[i])[m] {
      FlatMapAt(slots, HourlySlots, i, m);
    }
    FlatMap(slots, HourlySlots)
  }

  /** `Array.prototype.flatMap` with a callback that returns four items. */
  function FlatMap<A, B>(s: seq<A>, f: A -> seq<B>): seq<B> {
    if s == [] then [] else f(s[0]) + FlatMap(s[1..], f)
  }

  lemma {:induction false} FlatMapLength<A, B>(s: seq<A>, f: A -> seq<B>)
    requires forall x :: |f(x)| == 4
    ensures |FlatMap(s, f)| == 4 * |s|
  {
    if s != [] {
      FlatMapLength(s[1..], f);
    }
  }

  /** The four items of the i-th element sit at 4i to 4i+3. */
  lemma {:induction false} FlatMapAt<A, B>(s: seq<A>, f: A -> seq<B>, i: int, m: int)
    requires forall x :: |f(x)| == 4
    requires 0 <= i < |s| && 0 <= m < 4
    ensures |FlatMap(s, f)| == 4 * |s|
    ensures FlatMap(s, f)[4 * i + m] == f(s[i])[m]
  {
    FlatMapLength(s, f);
    var head := f(s[0]);
    var rest := FlatMap(s[1..], f);
    if i == 0 {
      ConcatAtLeft(head, rest, m);
    } else {
      FlatMapAt(s[1..], f, i - 1, m);
      ConcatAtRight(head, rest, 4 * i + m);
      assert s[1..][i - 1] == s[i];
    }
  }

  lemma ConcatAtLeft<T>(a: seq<T>, b: seq<T>, k: int)
    requires 0 <= k < |a|
    ensures (a + b)[k] == a[k]
  {
  }

  lemma ConcatAtRight<T>(a: seq<T>, b: seq<T>, k: int)
    requires |a| <= k < |a| + |b|
    ensures (a + b)[k] == b[k - |a|]
  {
  }

  // ---------------------------------------------------------------------
  // Toggling a slot
  // ---------------------------------------------------------------------

  function SlotKey(s: Slot): int {
    0 - SlotIndex(s)
  }

  /** `[...slots].sort()`: stable, in string order, which for slots is day order. */
  function SortSlots(slots: seq<Slot>): (r: seq<Slot>)
    ensures multiset(r) == multiset(slots)
    ensures forall i, j :: 0 <= i < j < |r| ==> SlotIndex(r[i]) <= SlotIndex(r[j])
  {
    var r := SortDesc(slots, SlotKey);
    SortDescSorted(slots, SlotKey);
    r
  }

  /** The day's new list: the slot filtered out if present, else appended and sorted. */
  function ToggledDay(current: seq<Slot>, slot: Slot): (r: seq<Slot>)
    ensures slot in r <==> slot !in current
    ensures forall t :: t != slot ==> (t in r <==> t in current)
    ensures slot !in current ==> r != [] && forall i, j :: 0 <= i < j < |r| ==> SlotIndex(r[i]) <= SlotIndex(r[j])
  {
    if slot in current then RemoveAll(current, slot)
    else
      var r := SortSlots(current + [slot]);
      assert forall t :: t in r <==> t in multiset(current + [slot]);
      r
  }

  /** toggleSlot: removes the slot from the day if present, otherwise adds it and
      sorts; a day left without slots disappears. Other days are untouched. */
  function ToggleSlot(h: AvailableHours, d: Day, slot: Slot): (r: AvailableHours)
    ensures forall e :: e != d ==> (e in r <==> e in h) && (e in r ==> r[e] == h[e])
    ensures slot in GetSlotsForDay(r, d) <==> slot !in GetSlotsForDay(h, d)
    ensures forall t :: t != slot ==> (t in GetSlotsForDay(r, d) <==> t in GetSlotsForDay(h, d))
    ensures d in r ==> r[d] != [] && r[d] == ToggledDay(GetSlotsForDay(h, d), slot)
    ensures slot !in GetSlotsForDay(h, d) ==>
              d in r && forall i, j :: 0 <= i < j < |r[d]| ==> SlotIndex(r[d][i]) <= SlotIndex(r[d][j])
  {
    var newSlots := ToggledDay(GetSlotsForDay(h, d), slot);
    if |newSlots| > 0 then h[d := newSlots] else h - {d}
  }

  /** A day's list as the toggle produces it: ordered, each slot at most once. */
  predicate WellFormedDay(slots: seq<Slot>) {
    forall i, j :: 0 <= i < j < |slots| ==> SlotIndex(slots[i]) < SlotIndex(slots[j])
  }

  predicate WellFormed(h: AvailableHours) {
    forall d :: d in h ==> h[d] != [] && WellFormedDay(h[d])
  }

  lemma ToggledDayWellFormed(current: seq<Slot>, slot: Slot)
    requires WellFormedDay(current)
    ensures WellFormedDay(ToggledDay(current, slot))
  {
    var r := ToggledDay(current, slot);
    if slot in current {
      RemoveAllOrdered(current, slot);
    } else {
      var all := current + [slot];
      assert multiset(r) == multiset(all);
      forall i, j | 0 <= i < j < |r| ensures SlotIndex(r[i]) < SlotIndex(r[j]) {
        if SlotIndex(r[i]) == SlotIndex(r[j]) {
          SlotIndexInjective(r[i], r[j]);
          OrderedOccursOnce(r, i, j);
          var x := r[i];
          assert multiset(all)[x] == multiset(current)[x] + multiset([slot])[x];
          StrictlyOrderedCountOne(current, x);
        }
      }
    }
  }

  /** Toggling a slot twice on a well-formed day gives the day back. */
  lemma ToggledDayTwice(current: seq<Slot>, slot: Slot)
    requires WellFormedDay(current)
    ensures ToggledDay(ToggledDay(current, slot), slot) == current
  {
    var once := ToggledDay(current, slot);
    ToggledDayWellFormed(current, slot);
    var twice := ToggledDay(once, slot);
    ToggledDayWellFormed(once, slot);
    StrictlyOrderedUnique(twice, current);
  }

  /** The toggle keeps a map well formed. */
  lemma ToggleWellFormed(h: AvailableHours, d: Day, slot: Slot)
    requires WellFormed(h)
    ensures WellFormed(ToggleSlot(h, d, slot))
  {
    var current := GetSlotsForDay(h, d);
    assert WellFormedDay(current);
    ToggledDayWellFormed(current, slot);
    var r := ToggleSlot(h, d, slot);
    forall e | e in r ensures r[e] != [] && WellFormedDay(r[e]) {
      if e != d {
        assert e in h && r[e] == h[e];
      }
    }
  }

  /** On a well-formed map, toggling the same slot twice gives the map back. */
  lemma ToggleTwice(h: AvailableHours, d: Day, slot: Slot)
    requires WellFormed(h)
    ensures ToggleSlot(ToggleSlot(h, d, slot), d, slot) == h
  {
    var twice := ToggleSlot(ToggleSlot(h, d, slot), d, slot);
    forall e ensures (e in twice <==> e in h) && (e in h ==> twice[e] == h[e]) {
      if e != d {
        ToggleTwiceOthers(h, d, slot, e);
      } else {
        ToggleTwiceSameDay(h, d, slot);
      }
    }
    MapsAgree(twice, h);
  }

  /** Two maps with the same keys and the same values are equal. */
  lemma MapsAgree<K, V>(a: map<K, V>, b: map<K, V>)
    requires forall k :: (k in a <==> k in b) && (k in a ==> a[k] == b[k])
    ensures a == b
  {
    assert a.Keys == b.Keys;
  }

  /** The toggled day itself comes back after two toggles. */
  lemma ToggleTwiceSameDay(h: AvailableHours, d: Day, slot: Slot)
    requires WellFormed(h)
    ensures var twice := ToggleSlot(ToggleSlot(h, d, slot), d, slot);
            (d in twice <==> d in h) && (d in h ==> twice[d] == h[d])
  {
    var twice := ToggleSlot(ToggleSlot(h, d, slot), d, slot);
    var current := GetSlotsForDay(h, d);
    assert WellFormedDay(current) && (d in h <==> current != []);
    ToggledDayTwice(current, slot);
    ToggleTwiceDay(h, d, slot);
    assert GetSlotsForDay(twice, d) == current;
    assert d in twice ==> twice[d] != [];
  }

  lemma ToggleTwiceOthers(h: AvailableHours, d: Day, slot: Slot, e: Day)
    requires e != d
    ensures var twice := ToggleSlot(ToggleSlot(h, d, slot), d, slot);
      (e in twice <==> e in h) && (e in h ==> twice[e] == h[e])
  {
    var once := ToggleSlot(h, d, slot);
    assert (e in once <==> e in h) && (e in once ==> once[e] == h[e]);
  }

  /** The toggled day's list, read back after two toggles. */
  lemma ToggleTwiceDay(h: AvailableHours, d: Day, slot: Slot)
    ensures GetSlotsForDay(ToggleSlot(ToggleSlot(h, d, slot), d, slot), d)
              == ToggledDay(ToggledDay(GetSlotsForDay(h, d), slot), slot)
  {
    var once := ToggleSlot(h, d, slot);
    assert GetSlotsForDay(once, d) == ToggledDay(GetSlotsForDay(h, d), slot);
  }

  lemma {:induction false} RemoveAllOrdered(s: seq<Slot>, x: Slot)
    requires WellFormedDay(s)
    ensures WellFormedDay(RemoveAll(s, x))
  {
    if s != [] {
      RemoveAllOrdered(s[1..], x);
      var rest := RemoveAll(s[1..], x);
      assert RemoveAll(s, x) == (if s[0] == x then [] else [s[0]]) + rest;
      if s[0] != x {
        HeadBelowTail(s);
        ConsWellFormed(s[0], rest);
      } else {
        assert RemoveAll(s, x) == rest;
      }
    }
  }

  /** A slot below every slot of an ordered list can go in front of it. */
  lemma ConsWellFormed(h: Slot, rest: seq<Slot>)
    requires WellFormedDay(rest)
    requires forall y :: y in rest ==> SlotIndex(h) < SlotIndex(y)
    ensures WellFormedDay([h] + rest)
  {
    var r := [h] + rest;
    forall i, j | 0 <= i < j < |r| ensures SlotIndex(r[i]) < SlotIndex(r[j]) {
      assert r[j] == rest[j - 1] && rest[j - 1] in rest;
      if i > 0 {
        assert r[i] == rest[i - 1];
      }
    }
  }

  lemma HeadBelowTail(s: seq<Slot>)
    requires s != [] && WellFormedDay(s)
    ensures forall y :: y in s[1..] ==> SlotIndex(s[0]) < SlotIndex(y)
  {
    forall y | y in s[1..] ensures SlotIndex(s[0]) < SlotIndex(y) {
      var m :| 0 <= m < |s[1..]| && s[1..][m] == y;
      assert s[m + 1] == y;
    }
  }

  /** In a non-decreasing list, two equal entries at i < j give the entry twice. */
  lemma OrderedOccursOnce(s: seq<Slot>, i: nat, j: nat)
    requires i < j < |s| && s[i] == s[j]
    ensures multiset(s)[s[i]] >= 2
  {
    assert s == s[..i] + [s[i]] + s[i + 1..j] + [s[j]] + s[j + 1..];
  }

  lemma {:induction false} StrictlyOrderedCountOne(s: seq<Slot>, x: Slot)
    requires WellFormedDay(s)
    ensures multiset(s)[x] <= 1
  {
    if s != [] {
      StrictlyOrderedCountOne(s[1..], x);
      assert s == [s[0]] + s[1..];
      if s[0] == x {
        assert x !in s[1..] by {
          forall k | 0 <= k < |s[1..]| ensures s[1..][k] != x {
            assert s[1..][k] == s[k + 1];
          }
        }
      }
    }
  }

  /** Two strictly ordered lists of slots with the same members are equal. */
  lemma {:induction false} StrictlyOrderedUnique(a: seq<Slot>, b: seq<Slot>)
    requires WellFormedDay(a) && WellFormedDay(b)
    requires forall t :: t in a <==> t in b
    ensures a == b
  {
    SameMembersBothEmpty(a, b);
    if a != [] {
      HeadBelowTail(a);
      HeadBelowTail(b);
      assert a == [a[0]] + a[1..] && b == [b[0]] + b[1..];
      // the first entry of each is the smallest member of both
      assert a[0] == b[0] by {
        assert b[0] in a && a[0] in b;
      }
      forall t ensures t in a[1..] <==> t in b[1..] {
        if t in a[1..] {
          assert t in a && t != a[0];
          assert t in b;
        }
        if t in b[1..] {
          assert t in b && t != b[0];
          assert t in a;
        }
      }
      StrictlyOrderedUnique(a[1..], b[1..]);
    }
  }

  lemma SameMembersBothEmpty(a: seq<Slot>, b: seq<Slot>)
    requires forall t :: t in a <==> t in b
    ensures a == [] <==> b == []
  {
    if a != [] {
      assert a[0] in a;
    }
    if b != [] {
      assert b[0] in b;
    }
  }

  // ---------------------------------------------------------------------
  // Display
  // ---------------------------------------------------------------------

  /** The 12-hour clock hour: `hours % 12 || 12`. */
  function DisplayHour(hours: nat): (r: nat)
    ensures 1 <= r <= 12
    ensures r % 12 == hours % 12
  {
    if hours % 12 == 0 then 12 else hours % 12
  }

  function Period(hours: nat): (r: string)
    ensures r == "PM" <==> hours >= 12
    ensures r == "PM" || r == "AM"
  {
    if hours >= 12 then "PM" else "AM"
  }

  /** formatTimeForDisplay, on the hour and minute already read from "HH:MM". */
  function FormatTimeForDisplay(hours: nat, minutes: nat): (r: string)
    ensures |r| >= 7
    ensures IsPrefix(DecimalString(DisplayHour(hours)) + ":", r)
    ensures r[|r| - 3..] == " " + Period(hours)
    ensures r[|DecimalString(DisplayHour(hours))| + 1..|r| - 3] == PadStart(DecimalString(minutes), 2, '0')
  {
    var hh := DecimalString(DisplayHour(hours)) + ":";
    var mm := PadStart(DecimalString(minutes), 2, '0');
    var tail := " " + Period(hours);
    assert |tail| == 3;
    ConcatParts(hh, mm + tail);
    ConcatParts(hh + mm, tail);
    assert hh + mm + tail == hh + (mm + tail);
    hh + mm + tail
  }

  /** Under an hour, the minutes are shown as two digits that read back as
      the minutes. */
  lemma DisplayedMinutes(hours: nat, minutes: nat)
    requires minutes < 60
    ensures var r := FormatTimeForDisplay(hours, minutes);
            var mm := r[|DecimalString(DisplayHour(hours))| + 1..|r| - 3];
            && |mm| == 2 && '0' <= mm[0] <= '9' && '0' <= mm[1] <= '9'
            && ParseTwoDigits(mm) == minutes
  {
    PaddedIsTwoDigits(minutes);
    ParseTwoDigitsOfTwoDigits(minutes);
  }

  /** `padStart(2, '0')` of a number below 100 is its two-digit form. */
  lemma PaddedIsTwoDigits(n: nat)
    requires n < 100
    ensures PadStart(DecimalString(n), 2, '0') == TwoDigits(n)
  {
    if n >= 10 {
      assert DecimalString(n / 10) == [DigitChar(n / 10)];
    }
  }

  /** The afternoon example: 14:00 is shown as 2:00 PM. */
  lemma AfternoonExample()
    ensures FormatTimeForDisplay(14, 0) == "2:00 PM"
  {
    assert DecimalString(DisplayHour(14)) == "2";
    assert PadStart(DecimalString(0), 2, '0') == "00";
  }

  function DayShortLabel(d: Day): (r: string)
    ensures |r| == 3 && (r[0] != 'S' || r[..2] == "Sá")
    ensures ',' !in r
  {
    match d
    case Monday => "Lun"
    case Tuesday => "Mar"
    case Wednesday => "Mié"
    case Thursday => "Jue"
    case Friday => "Vie"
    case Saturday => "Sáb"
    case Sunday => "Dom"
  }

  /** `days.map(d => dayLabelsShort[d])` */
  function DayLabels(days: seq<Day>): (r: seq<string>)
    ensures |r| == |days|
    ensures forall i :: 0 <= i < |days| ==> r[i] == DayShortLabel(days[i])
  {
    seq(|days|, i requires 0 <= i < |days| => DayShortLabel(days[i]))
  }

  /** formatAvailabilitySummary: the short names of the available days, in
      week order and separated by ", ", or the "no availability" text when
      there are none. */
  function FormatAvailabilitySummary(h: AvailableHours): (r: string)
    ensures r == "Sin disponibilidad" <==> IsAvailabilityEmpty(h)
    ensures !IsAvailabilityEmpty(h) ==> r == Join(DayLabels(GetAvailableDays(h)), ", ")
  {
    var days := GetAvailableDays(h);
    if |days| == 0 then "Sin disponibilidad"
    else
      var labels := DayLabels(days);
      var r := Join(labels, ", ");
      assert IsPrefix(labels[0], r);
      assert r[..2] != "Si" by {
        assert r[..2] == labels[0][..2];
      }
      r
  }

  lemma DayShortLabelInjective(d: Day, e: Day)
    requires DayShortLabel(d) == DayShortLabel(e)
    ensures d == e
  {
    DayKeyInjective(d, e);
  }

  /** Read back as a list, the summary of a week with some availability names
      each available day once, in week order, and names no other day. */
  lemma SummaryNamesAvailableDays(h: AvailableHours)
    requires !IsAvailabilityEmpty(h)
    ensures var items := SplitList(FormatAvailabilitySummary(h));
            var days := GetAvailableDays(h);
            && |items| == |days|
            && (forall i :: 0 <= i < |days| ==> items[i] == DayShortLabel(days[i]))
            && (forall d :: DayShortLabel(d) in items <==> HasAvailabilityOnDay(h, d))
  {
    var days := GetAvailableDays(h);
    var labels := DayLabels(days);
    assert labels != [] by {
      assert FormatAvailabilitySummary(h) != "Sin disponibilidad";
    }
    SplitJoin(labels);
    var items := SplitList(FormatAvailabilitySummary(h));
    assert items == labels;
    forall d ensures DayShortLabel(d) in items <==> HasAvailabilityOnDay(h, d) {
      if DayShortLabel(d) in items {
        var i :| 0 <= i < |items| && items[i] == DayShortLabel(d);
        DayShortLabelInjective(days[i], d);
      }
      if HasAvailabilityOnDay(h, d) {
        var i :| 0 <= i < |days| && days[i] == d;
        assert items[i] == DayShortLabel(d);
      }
    }
  }

  function SlotShortLabel(s: Slot): (r: string)
    ensures r != "" && ',' !in r
  {
    match s
    case Morning => "6-10 AM"
    case Midday => "10AM-2PM"
    case Afternoon => "2-6 PM"
    case Evening => "6-10 PM"
  }

  /** `slots.map(s => slotLabels[s])` */
  function SlotLabels(slots: seq<Slot>): (r: seq<string>)
    ensures |r| == |slots|
    ensures forall i :: 0 <= i < |slots| ==> r[i] == SlotShortLabel(slots[i])
  {
    seq(|slots|, i requires 0 <= i < |slots| => SlotShortLabel(slots[i]))
  }

  /** formatDaySlots: the short labels of the day's slots separated by ", ",
      or "" for a day without slots. */
  function FormatDaySlots(h: AvailableHours, d: Day): (r: string)
    ensures r == [] <==> !HasAvailabilityOnDay(h, d)
    ensures HasAvailabilityOnDay(h, d) ==> r == Join(SlotLabels(h[d]), ", ")
  {
    var slots := GetSlotsForDay(h, d);
    if |slots| == 0 then ""
    else
      var labels := SlotLabels(slots);
      var r := Join(labels, ", ");
      assert IsPrefix(labels[0], r);
      r
  }

  lemma SlotShortLabelInjective(s: Slot, t: Slot)
    requires SlotShortLabel(s) == SlotShortLabel(t)
    ensures s == t
  {
  }

  /** Read back as a list, a day's slot text names each of the day's slots in
      the stored order, and no other slot. */
  lemma DaySlotsNameTheSlots(h: AvailableHours, d: Day)
    requires HasAvailabilityOnDay(h, d)
    ensures var items := SplitList(FormatDaySlots(h, d));
            && |items| == |h[d]|
            && (forall i :: 0 <= i < |h[d]| ==> items[i] == SlotShortLabel(h[d][i]))
            && (forall s :: SlotShortLabel(s) in items <==> s in h[d])
  {
    var labels := SlotLabels(h[d]);
    SplitJoin(labels);
    var items := SplitList(FormatDaySlots(h, d));
    assert items == labels;
    forall s ensures SlotShortLabel(s) in items <==> s in h[d] {
      if SlotShortLabel(s) in items {
        var i :| 0 <= i < |items| && items[i] == SlotShortLabel(s);
        SlotShortLabelInjective(h[d][i], s);
      }
      if s in h[d] {
        var i :| 0 <= i < |h[d]| && h[d][i] == s;
        assert items[i] == SlotShortLabel(s);
      }
    }
  }
}
