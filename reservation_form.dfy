/**
 * The reservation form (client/src/components/ReservationForm.tsx): the time slots
 * offered in its dropdown, the refusal of a signed-out visitor, and the request body
 * built from the form's values.
 */
module ReservationForm {
  import opened Wrappers
  import Text

  /** One dropdown entry `{ value, label }`: the "HH:MM" value and the caption shown for it. */
  datatype TimeSlot = TimeSlot(value: string, caption: string)

  /** The entry the loop body builds for hour `h` and minute `m`. */
  function SlotAt(h: nat, m: nat): TimeSlot {
    var hour := if h < 10 then "0" + Text.NatToString(h) else Text.NatToString(h);
    var minute := if m == 0 then "00" else Text.NatToString(m);
    var twelve := if h % 12 == 0 then 12 else h % 12;
    TimeSlot(hour + ":" + minute, Text.NatToString(twelve) + ":" + minute + " " + (if h >= 12 then "PM" else "AM"))
  }

  /** The entries of hour `h` for the minutes below `m`, stepping by 30 from 0. */
  function HourSlots(h: nat, m: nat): seq<TimeSlot> {
    if m < 30 then [] else HourSlots(h, m - 30) + [SlotAt(h, m - 30)]
  }

  /** The entries of the hours `lo` up to but not including `hi`, in loop order. */
  function SlotsBetween(lo: nat, hi: nat): seq<TimeSlot> {
    if hi <= lo then [] else SlotsBetween(lo, hi - 1) + HourSlots(hi - 1, 60)
  }

  /** `generateTimeSlots`: hours 17 to 21, minutes 0 and 30. */
  method GenerateTimeSlots() returns (slots: seq<TimeSlot>)
    ensures slots == SlotsBetween(17, 22)
  {
    slots := [];
    var h := 17;
    while h <= 21
      invariant 17 <= h <= 22
      invariant slots == SlotsBetween(17, h)
    {
      var m := 0;
      while m < 60
        invariant m == 0 || m == 30 || m == 60
        invariant slots == SlotsBetween(17, h) + HourSlots(h, m)
      {
        assert HourSlots(h, m + 30) == HourSlots(h, m) + [SlotAt(h, m)];
        slots := slots + [SlotAt(h, m)];
        m := m + 30;
      }
      assert SlotsBetween(17, h + 1) == SlotsBetween(17, h) + HourSlots(h, 60);
      h := h + 1;
    }
  }

  /** The inner loop's entries for a whole hour. */
  lemma HourSlotsOfOneHour(h: nat)
    ensures HourSlots(h, 60) == [SlotAt(h, 0), SlotAt(h, 30)]
  {
    assert HourSlots(h, 0) == [];
    assert HourSlots(h, 30) == [SlotAt(h, 0)];
  }

  /** The loop's entries in closed form: for each hour, one on the hour and then one on the half hour. */
  lemma {:induction false} SlotsBetweenIndexed(lo: nat, hi: nat)
    requires lo <= hi
    ensures |SlotsBetween(lo, hi)| == 2 * (hi - lo)
    ensures forall j :: 0 <= j < hi - lo ==>
      SlotsBetween(lo, hi)[2 * j] == SlotAt(lo + j, 0) && SlotsBetween(lo, hi)[2 * j + 1] == SlotAt(lo + j, 30)
  {
    if hi > lo {
      SlotsBetweenIndexed(lo, hi - 1);
      var before := SlotsBetween(lo, hi - 1);
      HourSlotsOfOneHour(hi - 1);
      assert SlotsBetween(lo, hi) == before + [SlotAt(hi - 1, 0), SlotAt(hi - 1, 30)];
      forall j | 0 <= j < hi - 1 - lo
        ensures SlotsBetween(lo, hi)[2 * j] == before[2 * j] && SlotsBetween(lo, hi)[2 * j + 1] == before[2 * j + 1]
      {
      }
    }
  }

  /** Two digits read as a number. */
  lemma DigitsValueOfTwo(s: string)
    requires |s| == 2 && Text.AllDigits(s)
    ensures Text.DigitsValue(s) == Text.DigitValue(s[0]) * 10 + Text.DigitValue(s[1])
  {
    var first := s[..1];
    assert first[..0] == [] && first[0] == s[0];
    assert Text.DigitsValue(first) == Text.DigitValue(s[0]);
  }

  /** A two-digit number printed. */
  lemma TwoDigitString(n: nat)
    requires 10 <= n < 100
    ensures Text.NatToString(n) == [Text.DigitChar(n / 10), Text.DigitChar(n % 10)]
  {
  }

  /** A zero-padded 24-hour time: two digits, a colon, two digits. */
  predicate IsClock(value: string) {
    |value| == 5 && value[2] == ':' && Text.AllDigits(value[..2]) && Text.AllDigits(value[3..])
  }

  /** Minutes after midnight of a clock value. */
  function ClockMinutes(value: string): int
    requires IsClock(value)
  {
    Text.DigitsValue(value[..2]) * 60 + Text.DigitsValue(value[3..])
  }

  /** The 12-hour caption of a clock value: hour 0 and 12 read 12, with "AM" or "PM". */
  function TwelveHourLabel(value: string): string
    requires IsClock(value)
  {
    var h := Text.DigitsValue(value[..2]);
    Text.NatToString(if h % 12 == 0 then 12 else h % 12) + value[2..] + (if h >= 12 then " PM" else " AM")
  }

  /**
   * An evening slot (hours 13 to 21, minute 0 or 30) has a zero-padded clock value
   * on the hour or the half hour, naming the slot's own time, and its caption is the
   * 12-hour caption of that value, in the afternoon.
   */
  lemma EveningSlot(h: nat, m: nat)
    requires 13 <= h <= 21 && (m == 0 || m == 30)
    ensures var s := SlotAt(h, m);
      IsClock(s.value) && (s.value[3..] == "00" || s.value[3..] == "30") &&
      ClockMinutes(s.value) == 60 * h + m &&
      s.caption == TwelveHourLabel(s.value) && s.caption[|s.caption| - 3..] == " PM"
  {
    var s := SlotAt(h, m);
    TwoDigitString(h);
    var minute := if m == 0 then "00" else Text.NatToString(m);
    assert minute == [Text.DigitChar(m / 10), '0'] by {
      if m == 30 {
        TwoDigitString(30);
      }
    }
    assert s.value == [Text.DigitChar(h / 10), Text.DigitChar(h % 10), ':'] + minute;
    assert s.value[..2] == [Text.DigitChar(h / 10), Text.DigitChar(h % 10)];
    assert s.value[3..] == minute;
    DigitsValueOfTwo(s.value[..2]);
    DigitsValueOfTwo(s.value[3..]);
    assert Text.DigitsValue(s.value[..2]) == h;
    assert s.value[2..] == ":" + minute;
  }

  /**
   * Over any evening span of hours, entry 2j + half is the span's first hour plus j
   * hours and half a half hour, zero-padded on the hour or the half hour, with the
   * 12-hour caption of its value.
   */
  lemma {:induction false} EveningSpan(lo: nat, hi: nat, j: int, half: int)
    requires 13 <= lo <= hi <= 22 && 0 <= j < hi - lo && (half == 0 || half == 1)
    ensures |SlotsBetween(lo, hi)| == 2 * (hi - lo)
    ensures var s := SlotsBetween(lo, hi)[2 * j + half];
      IsClock(s.value) && (s.value[3..] == "00" || s.value[3..] == "30") &&
      ClockMinutes(s.value) == 60 * (lo + j) + 30 * half &&
      s.caption == TwelveHourLabel(s.value) && s.caption[|s.caption| - 3..] == " PM"
  {
    SlotsBetweenIndexed(lo, hi);
    var slots := SlotsBetween(lo, hi);
    if half == 0 {
      assert slots[2 * j] == SlotAt(lo + j, 0);
      EveningSlot(lo + j, 0);
    } else {
      assert slots[2 * j + 1] == SlotAt(lo + j, 30);
      EveningSlot(lo + j, 30);
    }
  }

  /**
   * The form offers ten slots, two per hour from 17 to 21: entry 2j + half is 17:00
   * plus j hours and half a half hour, so the values strictly increase from "17:00" to
   * "21:30"; each is zero-padded on the hour or the half hour, and each caption is the
   * 12-hour caption of its value, "5:00 PM" to "9:30 PM".
   */
  lemma SlotsAreHalfHours(j: int, half: int)
    requires 0 <= j < 5 && (half == 0 || half == 1)
    ensures |SlotsBetween(17, 22)| == 10
    ensures var s := SlotsBetween(17, 22)[2 * j + half];
      IsClock(s.value) && (s.value[3..] == "00" || s.value[3..] == "30") &&
      ClockMinutes(s.value) == 17 * 60 + 60 * j + 30 * half &&
      s.caption == TwelveHourLabel(s.value) && s.caption[|s.caption| - 3..] == " PM"
  {
    EveningSpan(17, 22, j, half);
  }

  /** The form's values as typed; `specialRequests` may be left undefined. */
  datatype FormValues = FormValues(date: string, time: string, partySize: string, fullName: string,
                                   email: string, phone: string, specialRequests: Option<string>)

  /** The `reservationData` body; a party size that does not parse is NaN (`None`). */
  datatype ReservationData = ReservationData(date: string, partySize: Option<int>, fullName: string, email: string,
                                             phone: string, specialRequests: string, status: string)

  /** `onSubmit`: a signed-out visitor gets a message and no request; anyone else sends the body. */
  function SubmitReservation(isAuthenticated: bool, form: FormValues): (r: Option<ReservationData>)
    ensures r.None? <==> !isAuthenticated
    ensures r.Some? ==> r.value.status == "pending" && r.value.partySize == Text.ParseInt(form.partySize)
    ensures r.Some? ==> r.value.fullName == form.fullName && r.value.email == form.email && r.value.phone == form.phone
    ensures r.Some? ==> r.value.specialRequests == if form.specialRequests.Some? then form.specialRequests.value else ""
  {
    if !isAuthenticated then None
    else
      Some(ReservationData(form.date + "T" + form.time + ":00", Text.ParseInt(form.partySize), form.fullName,
                           form.email, form.phone, form.specialRequests.GetOr(""), "pending"))
  }

  /**
   * For a time picked from the dropdown, the body's date is the form's date, "T", the
   * slot's clock time and ":00" seconds, and a party size typed as a plain number
   * reaches the body as that number.
   */
  lemma SubmittedDateAndSize(form: FormValues, j: int, half: int, n: nat)
    requires 0 <= j < 5 && (half == 0 || half == 1)
    requires |SlotsBetween(17, 22)| == 10 && form.time == SlotsBetween(17, 22)[2 * j + half].value
    requires form.partySize == Text.NatToString(n)
    ensures var body := SubmitReservation(true, form).value;
      |body.date| == |form.date| + 9 && body.date[..|form.date|] == form.date && body.date[|form.date|] == 'T' &&
      IsClock(body.date[|form.date| + 1..|form.date| + 6]) &&
      ClockMinutes(body.date[|form.date| + 1..|form.date| + 6]) == 17 * 60 + 60 * j + 30 * half &&
      body.date[|form.date| + 6..] == ":00" &&
      body.partySize == Some(n)
  {
    SlotsAreHalfHours(j, half);
    Text.ParseIntOfNatToString(n);
    var body := SubmitReservation(true, form).value;
    assert body.date[|form.date| + 1..|form.date| + 6] == form.time;
  }
}
