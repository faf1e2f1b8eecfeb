/**
 * The booking page: normalising the picked pickup point, converting the
 * chosen time to SQL `HH:MM:SS`, the guest stepper, the page's own total,
 * and the guards `handleBooking` runs before it inserts a booking.
 */
module Booking {
  import opened Values
  import opened Strings
  import Pricing
  import MapPicker

  // ---------------------------------------------------------------------------
  // Pickup value (`normPick`)
  // ---------------------------------------------------------------------------

  /** A coordinate as the picker hands it over: a finite number, or anything else. */
  datatype Coordinate = Finite(v: real) | NotFinite

  /**
   * What the picker passes to `onLocationSelect`: a falsy value (null,
   * undefined, "", ...), a non-empty string, or an object whose `address`
   * and `label` may be null or undefined.
   */
  datatype PickInput =
    | Falsy
    | Text(s: string)
    | Place(address: Option<string>, labelText: Option<string>, lat: Coordinate, lng: Coordinate)

  datatype PickerValue = PickerValue(address: string, lat: Option<real>, lng: Option<real>)

  const EmptyPick: PickerValue := PickerValue("", None, None)

  function CoordinateValue(c: Coordinate): (r: Option<real>)
    ensures r.Some? <==> c.Finite?
    ensures c.Finite? ==> r.value == c.v
  {
    if c.Finite? then Some(c.v) else None
  }

  function NormPick(v: PickInput): (r: PickerValue)
    ensures v.Falsy? ==> r == EmptyPick
    ensures v.Text? ==> r == PickerValue(v.s, None, None)
    ensures v.Place? && v.address.Some? ==> r.address == v.address.value
    ensures v.Place? && v.address.None? && v.labelText.Some? ==> r.address == v.labelText.value
    ensures v.Place? && v.address.None? && v.labelText.None? ==> r.address == ""
    ensures v.Place? ==> (r.lat.Some? <==> v.lat.Finite?) && (r.lng.Some? <==> v.lng.Finite?)
    ensures v.Place? && v.lat.Finite? ==> r.lat == Some(v.lat.v)
    ensures v.Place? && v.lng.Finite? ==> r.lng == Some(v.lng.v)
  {
    match v
    case Falsy => EmptyPick
    case Text(s) => PickerValue(s, None, None)
    case Place(address, labelText, lat, lng) =>
      var a := if address.Some? then address.value else if labelText.Some? then labelText.value else "";
      PickerValue(a, CoordinateValue(lat), CoordinateValue(lng))
  }

  /** A location chosen in the picker arrives whole: its address and both coordinates. */
  lemma NormPickOfLocation(loc: MapPicker.Location)
    ensures NormPick(Place(Some(loc.address), None, Finite(loc.lat), Finite(loc.lng)))
         == PickerValue(loc.address, Some(loc.lat), Some(loc.lng))
  {
  }

  /** Normalising a normalised value changes nothing, once it is handed back as an object. */
  lemma NormPickIdempotent(v: PickInput)
    ensures var p := NormPick(v);
            var back := Place(Some(p.address), None,
                              if p.lat.Some? then Finite(p.lat.value) else NotFinite,
                              if p.lng.Some? then Finite(p.lng.value) else NotFinite);
            NormPick(back) == p
  {
  }

  // ---------------------------------------------------------------------------
  // Time conversion (`toSqlTime`)
  // ---------------------------------------------------------------------------

  /** The pieces of a match of `^(\d{1,2}):(\d{2})\s*(AM|PM)$` (case-insensitive). */
  datatype TimeMatch = TimeMatch(hour: string, minutes: string, gap: string, meridiem: string)

  predicate IsMeridiem(s: string)
  {
    Upper(s) == "AM" || Upper(s) == "PM"
  }

  predicate WellFormed(m: TimeMatch)
  {
    && 1 <= |m.hour| <= 2 && AllDigits(m.hour)
    && |m.minutes| == 2 && AllDigits(m.minutes)
    && AllSpace(m.gap)
    && |m.meridiem| == 2 && IsMeridiem(m.meridiem)
  }

  /** The text a match was read from. */
  function Spell(m: TimeMatch): string
  {
    m.hour + ":" + m.minutes + m.gap + m.meridiem
  }

  /**
   * Matching the time pattern against the whole of `s`. The hour has one
   * digit when a colon follows it directly, two otherwise.
   */
  function MatchTime(s: string): (r: Option<TimeMatch>)
    ensures r.Some? ==> WellFormed(r.value) && Spell(r.value) == s
  {
    var c := if |s| >= 2 && s[1] == ':' then 1 else 2;
    if |s| < c + 5 || s[c] != ':' || !AllDigits(s[..c]) then None
    else
      var m := TimeMatch(s[..c], s[c + 1..c + 3], s[c + 3..|s| - 2], s[|s| - 2..]);
      if AllDigits(m.minutes) && AllSpace(m.gap) && IsMeridiem(m.meridiem) then
        assert Spell(m) == s;
        Some(m)
      else None
  }

  /** Every well-formed match is found again in the text it spells: the pattern reads it back unchanged. */
  lemma MatchSpell(m: TimeMatch)
    requires WellFormed(m)
    ensures MatchTime(Spell(m)) == Some(m)
  {
    var s := Spell(m);
    var c := |m.hour|;
    assert s[..c] == m.hour;
    assert s[c] == ':';
    if c == 2 {
      assert s[1] == m.hour[1] && IsDigit(m.hour[1]);
    }
    assert s[c + 1..c + 3] == m.minutes;
    assert s[c + 3..|s| - 2] == m.gap;
    assert s[|s| - 2..] == m.meridiem;
  }

  /** A spelled match begins with a digit and ends with a letter, so trimming leaves it alone. */
  lemma SpellIsTrimmed(m: TimeMatch)
    requires WellFormed(m)
    ensures Trim(Spell(m)) == Spell(m)
  {
    var s := Spell(m);
    assert s[0] == m.hour[0] && IsDigit(s[0]);
    assert s[|s| - 1] == m.meridiem[1];
    assert UpperChar(s[|s| - 1]) == 'M';
    TrimNoop(s);
  }

  /** The 24-hour hour for a 12-hour reading: PM adds 12 except to 12, AM turns 12 into 0. */
  function Hour24(h: nat, pm: bool): (r: nat)
    ensures 1 <= h <= 12 ==> r < 24 && r % 12 == h % 12 && (r >= 12 <==> pm)
    ensures h == 0 || 12 < h ==> r == if pm then h + 12 else h
  {
    if pm && h != 12 then h + 12
    else if !pm && h == 12 then 0
    else h
  }

  /** `padStart(2, "0")`: shorter text is filled with zeros up to two characters. */
  function PadStart2(s: string): (r: string)
    ensures |r| == if |s| < 2 then 2 else |s|
    ensures r[|r| - |s|..] == s && forall i :: 0 <= i < |r| - |s| ==> r[i] == '0'
  {
    if |s| == 0 then "00" else if |s| == 1 then "0" + s else s
  }

  /**
   * What `toSqlTime(t)` returns. `dateTime` stands for the JavaScript
   * `Date` path: it yields the first eight characters of the time string
   * when `new Date("1970-01-01T" + t)` is a valid date, and `None` otherwise.
   */
  function SqlTime(t: string, dateTime: string -> Option<string>): string
  {
    if t == "" then ""
    else if dateTime(t).Some? then dateTime(t).value
    else match MatchTime(Trim(t))
      case None => ""
      case Some(m) =>
        PadStart2(NatToString(Hour24(DigitsValue(m.hour), Upper(m.meridiem) == "PM"))) + ":" + m.minutes + ":00"
  }

  /** `toSqlTime`, step by step: the hour is read, then adjusted for PM, then for 12 AM. */
  method ToSqlTime(t: string, dateTime: string -> Option<string>) returns (r: string)
    ensures r == SqlTime(t, dateTime)
    ensures t == "" ==> r == ""
  {
    if t == "" {
      return "";
    }
    var d := dateTime(t);
    if d.Some? {
      return d.value;
    }
    var m := MatchTime(Trim(t));
    if m.None? {
      return "";
    }
    var hh := DigitsValue(m.value.hour);
    var ap := Upper(m.value.meridiem);
    if ap == "PM" && hh != 12 {
      hh := hh + 12;
    }
    if ap == "AM" && hh == 12 {
      hh := 0;
    }
    r := PadStart2(NatToString(hh)) + ":" + m.value.minutes + ":00";
  }

  /**
   * A spelled 12-hour time that the `Date` path rejects becomes the
   * 24-hour hour, padded to two digits, then the minutes as typed, then ":00".
   */
  lemma SqlTimeOfSpelled(m: TimeMatch, dateTime: string -> Option<string>)
    requires WellFormed(m) && dateTime(Spell(m)).None?
    ensures SqlTime(Spell(m), dateTime)
         == PadStart2(NatToString(Hour24(DigitsValue(m.hour), Upper(m.meridiem) == "PM"))) + ":" + m.minutes + ":00"
  {
    SpellIsTrimmed(m);
    MatchSpell(m);
  }

  /** `HH:MM:00` with an hour below 24. */
  predicate IsClockTime(r: string)
  {
    && |r| == 8 && r[2] == ':' && r[5] == ':' && r[6] == '0' && r[7] == '0'
    && AllDigits(r[..2]) && AllDigits(r[3..5]) && DigitsValue(r[..2]) < 24
  }

  /** For hours 1 to 12 the result is a valid `HH:MM:00` on the 24-hour clock, afternoon exactly for PM. */
  lemma SqlTimeIsClockTime(m: TimeMatch, dateTime: string -> Option<string>)
    requires WellFormed(m) && dateTime(Spell(m)).None?
    requires 1 <= DigitsValue(m.hour) <= 12
    ensures IsClockTime(SqlTime(Spell(m), dateTime))
    ensures SqlTime(Spell(m), dateTime)[3..5] == m.minutes
    ensures DigitsValue(SqlTime(Spell(m), dateTime)[..2]) >= 12 <==> Upper(m.meridiem) == "PM"
  {
    SqlTimeOfSpelled(m, dateTime);
    var h := Hour24(DigitsValue(m.hour), Upper(m.meridiem) == "PM");
    ClockTextShape(h, m.minutes);
  }

  lemma ClockTextShape(h: nat, minutes: string)
    requires h < 24 && |minutes| == 2 && AllDigits(minutes)
    ensures IsClockTime(PadStart2(NatToString(h)) + ":" + minutes + ":00")
    ensures DigitsValue((PadStart2(NatToString(h)) + ":" + minutes + ":00")[..2]) == h
    ensures (PadStart2(NatToString(h)) + ":" + minutes + ":00")[3..5] == minutes
  {
    TwoDigitHour(h);
    TextShape(PadStart2(NatToString(h)), minutes);
  }

  lemma TextShape(hh: string, minutes: string)
    requires |hh| == 2 && |minutes| == 2
    ensures var r := hh + ":" + minutes + ":00";
      && |r| == 8 && r[..2] == hh && r[2] == ':' && r[3..5] == minutes
      && r[5] == ':' && r[6] == '0' && r[7] == '0'
  {
  }

  /** An hour below 100, padded, is two digits that read back as the hour. */
  lemma TwoDigitHour(h: nat)
    requires h < 100
    ensures var p := PadStart2(NatToString(h));
            |p| == 2 && AllDigits(p) && DigitsValue(p) == h
  {
    DigitsValueOfNatToString(h);
    if h < 10 {
      PadZeroValue(NatToString(h));
    }
  }

  /** A leading zero does not change a digit's value. */
  lemma PadZeroValue(s: string)
    requires |s| == 1 && AllDigits(s)
    ensures AllDigits("0" + s) && DigitsValue("0" + s) == DigitsValue(s)
  {
    assert ("0" + s)[..|"0" + s| - 1] == "0";
    assert s[..|s| - 1] == "";
  }

  /** The empty time and text that neither path accepts both give "". */
  lemma SqlTimeRejects(t: string, dateTime: string -> Option<string>)
    requires t == "" || (dateTime(t).None? && MatchTime(Trim(t)).None?)
    ensures SqlTime(t, dateTime) == ""
  {
  }

  /** The time pattern is checked for shape only: the hour is never range-checked. */
  lemma SqlTimeHourUnchecked(dateTime: string -> Option<string>)
    requires dateTime("13:00 PM").None?
    ensures SqlTime("13:00 PM", dateTime) == "25:00:00"
  {
    var m := TimeMatch("13", "00", " ", "PM");
    assert Spell(m) == "13:00 PM";
    assert Upper("PM") == "PM";
    assert WellFormed(m);
    assert DigitsValue("13") == 13 by {
      assert "13"[..1] == "1";
    }
    assert Hour24(13, true) == 25;
    assert NatToString(25) == "25" by {
      assert NatToString(2) == "2";
    }
    assert PadStart2("25") == "25";
    assert "25" + ":" + "00" + ":00" == "25:00:00";
    SqlTimeOfSpelled(m, dateTime);
  }

  /** Midnight: 12 AM becomes hour 0. */
  lemma SqlTimeTwelveAm(dateTime: string -> Option<string>)
    requires dateTime("12:00 AM").None?
    ensures SqlTime("12:00 AM", dateTime) == "00:00:00"
  {
    var m := TimeMatch("12", "00", " ", "AM");
    assert Spell(m) == "12:00 AM";
    assert Upper("AM") == "AM";
    assert WellFormed(m);
    assert DigitsValue("12") == 12 by {
      assert "12"[..1] == "1";
    }
    assert Hour24(12, false) == 0;
    assert NatToString(0) == "0";
    assert PadStart2("0") == "00";
    assert "00" + ":" + "00" + ":00" == "00:00:00";
    SqlTimeOfSpelled(m, dateTime);
  }

  /** An evening option from the form's list. */
  lemma SqlTimeSixThirtyPm(dateTime: string -> Option<string>)
    requires dateTime("6:30 PM").None?
    ensures SqlTime("6:30 PM", dateTime) == "18:30:00"
  {
    var m := TimeMatch("6", "30", " ", "PM");
    assert Spell(m) == "6:30 PM";
    assert Upper("PM") == "PM";
    assert WellFormed(m);
    assert DigitsValue("6") == 6;
    assert Hour24(6, true) == 18;
    assert NatToString(18) == "18" by {
      assert NatToString(1) == "1";
    }
    assert PadStart2("18") == "18";
    assert "18" + ":" + "30" + ":00" == "18:30:00";
    SqlTimeOfSpelled(m, dateTime);
  }

  // ---------------------------------------------------------------------------
  // Tours and the guest stepper
  // ---------------------------------------------------------------------------

  /** A row of the `tours` table, with the columns the page reads. */
  datatype TourRow = TourRow(id: string, externalId: Option<string>, title: string,
                             price: Option<int>, maxGuests: Option<int>)

  /** A tour as the page shows it: `id` is the public id, `dbId` the table's key. */
  datatype Tour = Tour(id: string, dbId: string, title: string, price: int, maxGuests: int)

  /** The mapping of a fetched row: the external id when set, a price of 0 and one guest by default. */
  function ToTour(row: TourRow): (t: Tour)
    ensures t.dbId == row.id && t.title == row.title
    ensures t.id == if Truthy(row.externalId) then row.externalId.value else row.id
    ensures t.price == if row.price.Some? then row.price.value else 0
    ensures t.maxGuests == if row.maxGuests.Some? then row.maxGuests.value else 1
  {
    Tour(if Truthy(row.externalId) then row.externalId.value else row.id, row.id, row.title,
         if row.price.Some? then row.price.value else 0,
         if row.maxGuests.Some? then row.maxGuests.value else 1)
  }

  /** The index of the first tour with the given public id, or `|tours|` when there is none. */
  function FindTour(tours: seq<Tour>, id: Option<string>): (k: nat)
    ensures k <= |tours|
    ensures k < |tours| ==> id == Some(tours[k].id)
    ensures forall j :: 0 <= j < k ==> id != Some(tours[j].id)
  {
    if tours == [] || id == Some(tours[0].id) then 0
    else 1 + FindTour(tours[1..], id)
  }

  /** `(data || []).map(...)`: every fetched row mapped, in order. */
  function ToTours(rows: seq<TourRow>): (r: seq<Tour>)
    ensures |r| == |rows|
    ensures forall i :: 0 <= i < |rows| ==> r[i] == ToTour(rows[i])
  {
    seq(|rows|, i requires 0 <= i < |rows| => ToTour(rows[i]))
  }

  /**
   * Selecting a row by its public id (the external id when it has one, the
   * row id otherwise) finds that row, provided no earlier row shares the id;
   * the tour found carries the row's key for the insert and its defaults.
   */
  lemma FindMappedTour(rows: seq<TourRow>, k: nat)
    requires k < |rows|
    requires forall j :: 0 <= j < k ==> ToTour(rows[j]).id != ToTour(rows[k]).id
    ensures var key := if Truthy(rows[k].externalId) then rows[k].externalId.value else rows[k].id;
            var tours := ToTours(rows);
            && FindTour(tours, Some(key)) == k
            && tours[k].dbId == rows[k].id
            && tours[k].price == (if rows[k].price.Some? then rows[k].price.value else 0)
            && tours[k].maxGuests == (if rows[k].maxGuests.Some? then rows[k].maxGuests.value else 1)
  {
  }

  /** The decrement button's update: never below one guest. */
  function StepDown(g: int): (r: int)
    ensures r >= 1
    ensures g > 1 ==> r == g - 1
    ensures g <= 1 ==> r == 1
  {
    if 1 < g - 1 then g - 1 else 1
  }

  /** The increment button's update: never above the tour's guest limit. */
  function StepUp(g: int, maxGuests: int): (r: int)
    ensures r <= maxGuests
    ensures g < maxGuests ==> r == g + 1
    ensures g >= maxGuests ==> r == maxGuests
  {
    if maxGuests < g + 1 then maxGuests else g + 1
  }

  /** Inside the limits the two buttons undo each other. */
  lemma StepsUndo(g: int, maxGuests: int)
    requires 1 <= g
    ensures g < maxGuests ==> StepDown(StepUp(g, maxGuests)) == g
    ensures 1 < g <= maxGuests ==> StepUp(StepDown(g), maxGuests) == g
  {
  }

  /** Between one guest and the limit, any number of presses of either button stays in range. */
  lemma StepsKeepRange(g: int, maxGuests: int)
    requires 1 <= g <= maxGuests
    ensures 1 <= StepDown(g) <= maxGuests
    ensures 1 <= StepUp(g, maxGuests) <= maxGuests
  {
  }

  // ---------------------------------------------------------------------------
  // The page
  // ---------------------------------------------------------------------------

  /** The row `handleBooking` inserts into `bookings`. */
  datatype BookingRow = BookingRow(
    tourId: string,
    tourDate: string,
    tourTime: string,
    guests: int,
    totalPrice: int,
    pickupLocation: string,
    pickupLat: Option<real>,
    pickupLng: Option<real>,
    customerName: string,
    customerEmail: string,
    customerPhone: string,
    specialRequests: Option<string>,
    status: string,
    paymentStatus: string)

  /** How a submission ends: one of the four alerts, or the insert. */
  datatype BookingOutcome =
    | NoTourSelected
    | TermsNotAgreed
    | MissingFields
    | InvalidTime
    | Insert(row: BookingRow)

  /** The page's state: the fetched tours, the selection and the form fields. */
  class BookingPage {
    var tours: seq<Tour>
    var selectedId: Option<string>
    var guests: int
    var selectedDate: string
    var selectedTime: string
    var pickup: PickerValue
    var customerName: string
    var customerEmail: string
    var customerPhone: string
    var specialRequests: string
    var agreedToTerms: bool

    constructor ()
      ensures tours == [] && selectedId.None? && guests == 1
      ensures selectedDate == "" && selectedTime == "" && pickup == EmptyPick
      ensures customerName == "" && customerEmail == "" && customerPhone == "" && specialRequests == ""
      ensures !agreedToTerms
    {
      tours := [];
      selectedId := None;
      guests := 1;
      selectedDate := "";
      selectedTime := "";
      pickup := EmptyPick;
      customerName := "";
      customerEmail := "";
      customerPhone := "";
      specialRequests := "";
      agreedToTerms := false;
    }

    /**
     * The end of the tour fetch: the mapped rows replace the list, and when
     * nothing is selected yet the first tour becomes the selection.
     */
    method LoadTours(rows: seq<TourRow>)
      modifies this`tours, this`selectedId
      ensures tours == ToTours(rows)
      ensures |rows| > 0 && !Truthy(old(selectedId)) ==> selectedId == Some(tours[0].id) && SelectedTour() == Some(tours[0])
      ensures !(|rows| > 0 && !Truthy(old(selectedId))) ==> selectedId == old(selectedId)
    {
      tours := ToTours(rows);
      if |rows| > 0 && !Truthy(selectedId) {
        selectedId := Some(tours[0].id);
      }
    }

    /** The first tour whose public id is the selected one. */
    function SelectedTour(): (r: Option<Tour>)
      reads this
      ensures r.Some? <==> exists i :: 0 <= i < |tours| && selectedId == Some(tours[i].id)
      ensures r.Some? ==> r.value in tours && selectedId == Some(r.value.id)
    {
      var k := FindTour(tours, selectedId);
      if k < |tours| then Some(tours[k]) else None
    }

    /** The increment's upper bound: the tour's limit, or 1 with no tour. */
    function MaxGuests(): (r: int)
      reads this
      ensures SelectedTour().None? ==> r == 1
      ensures SelectedTour().Some? ==> r == SelectedTour().value.maxGuests
    {
      if SelectedTour().Some? then SelectedTour().value.maxGuests else 1
    }

    /** The page's total: the tour's price times the guests, with no surcharge or discount. */
    function TotalPrice(): (r: int)
      reads this
      ensures SelectedTour().None? ==> r == 0
      ensures SelectedTour().Some? ==> r == SelectedTour().value.price * guests
    {
      (if SelectedTour().Some? then SelectedTour().value.price else 0) * guests
    }

    /** With a non-negative price and a guest count the stepper allows, the total lies between one and the maximum number of guests' worth. */
    lemma TotalWithinGuestRange()
      requires SelectedTour().Some? && SelectedTour().value.price >= 0 && 1 <= guests <= MaxGuests()
      ensures SelectedTour().value.price <= TotalPrice() <= SelectedTour().value.price * MaxGuests()
    {
      var p := SelectedTour().value.price;
      MulMonotone(p, 1, guests);
      MulMonotone(p, guests, MaxGuests());
    }

    /** Every field the form marks as required has a value. */
    predicate RequiredFilled()
      reads this
    {
      selectedDate != "" && selectedTime != "" && pickup.address != ""
      && customerName != "" && customerEmail != "" && customerPhone != ""
    }

    method DecrementGuests()
      modifies this`guests
      ensures guests == StepDown(old(guests))
    {
      guests := StepDown(guests);
    }

    method IncrementGuests()
      modifies this`guests
      ensures guests == StepUp(old(guests), MaxGuests())
    {
      guests := StepUp(guests, MaxGuests());
    }

    /** The picker's callback: the chosen value, normalised. */
    method SetPickup(v: PickInput)
      modifies this`pickup
      ensures pickup == NormPick(v)
    {
      pickup := NormPick(v);
    }

    /**
     * `handleBooking`: the guards in their order (a tour is selected, the
     * terms are agreed, the required fields are filled, the time converts),
     * then the row to insert.
     */
    method HandleBooking(dateTime: string -> Option<string>) returns (outcome: BookingOutcome)
      ensures outcome == NoTourSelected <==> SelectedTour().None?
      ensures outcome == TermsNotAgreed <==> SelectedTour().Some? && !agreedToTerms
      ensures outcome == MissingFields <==> SelectedTour().Some? && agreedToTerms && !RequiredFilled()
      ensures outcome == InvalidTime <==>
        SelectedTour().Some? && agreedToTerms && RequiredFilled() && SqlTime(selectedTime, dateTime) == ""
      ensures outcome.Insert? ==>
        && SelectedTour().Some? && agreedToTerms && RequiredFilled()
        && outcome.row == BookingRow(
             SelectedTour().value.dbId, selectedDate, SqlTime(selectedTime, dateTime), guests,
             TotalPrice(), pickup.address, pickup.lat, pickup.lng,
             customerName, customerEmail, customerPhone,
             if specialRequests == "" then None else Some(specialRequests),
             "pending", "pending")
        && outcome.row.tourTime != ""
        && outcome.row.totalPrice == SelectedTour().value.price * guests
    {
      var tour := SelectedTour();
      if tour.None? {
        return NoTourSelected;
      }
      if !agreedToTerms {
        return TermsNotAgreed;
      }
      if selectedDate == "" || selectedTime == "" || pickup.address == ""
         || customerName == "" || customerEmail == "" || customerPhone == "" {
        return MissingFields;
      }
      var sqlTime := ToSqlTime(selectedTime, dateTime);
      if sqlTime == "" {
        return InvalidTime;
      }
      var requests := if specialRequests == "" then None else Some(specialRequests);
      outcome := Insert(BookingRow(
        tour.value.dbId, selectedDate, sqlTime, guests, TotalPrice(),
        pickup.address, pickup.lat, pickup.lng,
        customerName, customerEmail, customerPhone, requests,
        "pending", "pending"));
    }
  }

  // ---------------------------------------------------------------------------
  // The page's total against the pricing engine
  // ---------------------------------------------------------------------------

  /** The pricing engine's charge for a whole-yen price and guest count, with every option left at its default. */
  function EngineTotal(price: nat, guests: nat): int
  {
    Pricing.Breakdown(Pricing.PriceInput(Num(price as real), Num(guests as real), None, None, None)).total
  }

  /** One guest: the engine doubles the price, the page charges it once. */
  lemma EngineChargesSoloDouble(price: nat)
    ensures EngineTotal(price, 1) == 2 * price
  {
    var input := Pricing.PriceInput(Num(price as real), Num(1.0), None, None, None);
    Pricing.SoloGetsNoGroupDiscount(input);
    Pricing.RoundInt(2 * price);
    Pricing.RoundInt(0);
  }

  /** Two guests or more: the engine takes off the group discount the page never applies. */
  lemma EngineAppliesGroupDiscount(price: nat, guests: nat)
    requires guests >= 2
    ensures EngineTotal(price, guests)
         == price * guests - Pricing.PercentOf(price * guests, Pricing.DefaultTier(guests))
  {
    var input := Pricing.PriceInput(Num(price as real), Num(guests as real), None, None, None);
    var b := Pricing.Breakdown(input);
    EngineBaseTotal(price, guests);
    Pricing.DefaultTable(guests);
    Pricing.GroupDiscountFromGuests(input);
    Pricing.CouponPercentClamped(input);
    NoCoupon(b.subtotalAfterGroup);
  }

  /** With two guests or more the engine's base is the plain product. */
  lemma EngineBaseTotal(price: nat, guests: nat)
    requires guests >= 2
    ensures var b := Pricing.Breakdown(Pricing.PriceInput(Num(price as real), Num(guests as real), None, None, None));
            b.guests == guests && b.baseTotal == price * guests
  {
    var b := Pricing.Breakdown(Pricing.PriceInput(Num(price as real), Num(guests as real), None, None, None));
    WholeGuests(guests);
    WholeBase(price, guests, b.soloMultiplier);
  }

  lemma WholeGuests(guests: nat)
    requires guests >= 1
    ensures Pricing.SafeGuests(Num(guests as real)) == guests
  {
    assert (guests as real).Floor == guests;
  }

  lemma WholeBase(price: nat, guests: nat, multiplier: JsNumber)
    requires guests >= 2
    ensures Pricing.BaseTotal(price as real, guests, multiplier) == price * guests
  {
    assert (price as real) * (guests as real) == (price * guests) as real;
    Pricing.RoundInt(price * guests);
  }

  lemma MulMonotone(p: int, a: int, b: int)
    requires p >= 0 && a <= b
    ensures p * a <= p * b
  {
    assert p * b - p * a == p * (b - a);
  }

  /** A coupon of 0 percent takes nothing. */
  lemma NoCoupon(amount: int)
    ensures Pricing.PercentOf(amount, Pricing.ClampPercent(Num(0.0))) == 0
  {
    Pricing.RoundInt(0);
  }
}
