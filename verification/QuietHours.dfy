/** Shifting a delivery out of the owner's quiet hours. A window is given in minutes of the local day. */
module QuietHours {
  import opened Wrappers
  import opened Calendar
  import opened Zones

  datatype Availability = Available(at: int) | Unresolvable(reason: Resolution) | InvalidWindow

  function MinuteOfDay(wall: int): (minute: int)
    ensures 0 <= minute < 1440
  {
    wall % DAY / MINUTE
  }

  predicate ValidWindow(start: Option<int>, end: Option<int>) {
    start.Some? && end.Some? && 0 <= start.value < 1440 && 0 <= end.value < 1440 && start != end
  }

  /** A window may run over midnight. */
  predicate IsQuiet(wall: int, start: int, end: int) {
    var minute := MinuteOfDay(wall);
    if start < end then start <= minute < end else start <= minute || minute < end
  }

  function WindowLength(start: int, end: int): int {
    if start < end then end - start else 1440 - start + end
  }

  /** The first wall time after this one at the given minute of a day. */
  function NextTimeAt(wall: int, minute: int): (t: int)
    requires 0 <= minute < 1440
    ensures wall < t <= wall + DAY && t % DAY == minute * MINUTE
  {
    var today := wall - wall % DAY + minute * MINUTE;
    if wall < today then today else today + DAY
  }

  /** What quiet hours make of an instant: itself, or the next end of the window. */
  ghost function AvailableAt(u: int, z: Zone, start: Option<int>, end: Option<int>, urgent: bool): Availability {
    if start.None? && end.None? then Available(u)
    else if !ValidWindow(start, end) then InvalidWindow
    else if urgent || !IsQuiet(Wall(z, u), start.value, end.value) then Available(u)
    else
      match Resolve(z, NextTimeAt(Wall(z, u), end.value))
      case Unique(v) => Available(v)
      case reason => Unresolvable(reason)
  }

  lemma NextTimeIsFirst(wall: int, minute: int, t: int)
    requires 0 <= minute < 1440 && wall < t && t % DAY == minute * MINUTE
    ensures NextTimeAt(wall, minute) <= t
  {
    var n := NextTimeAt(wall, minute);
    assert n == n / DAY * DAY + minute * MINUTE && t == t / DAY * DAY + minute * MINUTE;
  }

  /** The end of the window a quiet wall time lies in comes within the window's length. */
  lemma WindowEnds(wall: int, start: int, end: int)
    requires 0 <= start < 1440 && 0 <= end < 1440 && start != end && IsQuiet(wall, start, end)
    ensures NextTimeAt(wall, end) - wall <= WindowLength(start, end) * MINUTE
    ensures !IsQuiet(NextTimeAt(wall, end), start, end)
  {
  }

  /**
   A returned time is never before the input, is outside the window unless the reminder is urgent,
   is left alone by a second application, and is at most the window's length away on the wall clock.
   */
  lemma AvailableTimeIsSettled(u: int, z: Zone, start: Option<int>, end: Option<int>, urgent: bool, v: int)
    requires AvailableAt(u, z, start, end, urgent) == Available(v)
    ensures u <= v
    ensures AvailableAt(v, z, start, end, urgent) == Available(v)
    ensures start.Some? && !urgent ==> !IsQuiet(Wall(z, v), start.value, end.value)
    ensures start.Some? ==> 0 <= Wall(z, v) - Wall(z, u) <= WindowLength(start.value, end.value) * MINUTE
    ensures v == u <==> start.None? || urgent || !IsQuiet(Wall(z, u), start.value, end.value)
  {
    if start.Some? && !urgent && IsQuiet(Wall(z, u), start.value, end.value) {
      var t := NextTimeAt(Wall(z, u), end.value);
      WindowEnds(Wall(z, u), start.value, end.value);
      ResolvedTimeCuts(z, t, v, u);
      ResolvedTimeCuts(z, t, v, v);
    }
  }

  /** It is quiet for as many minutes from the start of the window as it is long. */
  lemma QuietMinutes(wall: int, start: int, end: int)
    requires 0 <= start < 1440 && 0 <= end < 1440 && start != end
    ensures IsQuiet(wall, start, end) <==> (wall % DAY / MINUTE - start) % 1440 < (end - start) % 1440
    ensures WindowLength(start, end) == (end - start) % 1440
  {
  }

  /**
   Outside the window, or when urgent, an instant is available as it is. Inside, it is put off to the next
   wall time at the end of the window, and available exactly if that names an instant, at that instant.
   Without a window every instant is available.
   */
  lemma AvailableExactly(u: int, z: Zone, start: Option<int>, end: Option<int>, urgent: bool, t: int)
    requires start.Some? && end.Some? ==> Wall(z, u) < t <= Wall(z, u) + DAY && t % DAY == end.value * MINUTE
    ensures start.None? && end.None? ==> AvailableAt(u, z, start, end, urgent) == Available(u)
    ensures start.Some? != end.Some? ==> AvailableAt(u, z, start, end, urgent) == InvalidWindow
    ensures start.Some? && end.Some? ==>
              var valid := 0 <= start.value < 1440 && 0 <= end.value < 1440 && start.value != end.value;
              var inside := (Wall(z, u) % DAY / MINUTE - start.value) % 1440 < (end.value - start.value) % 1440;
              && (!valid ==> AvailableAt(u, z, start, end, urgent) == InvalidWindow)
              && (valid && (urgent || !inside) ==> AvailableAt(u, z, start, end, urgent) == Available(u))
              && (valid && !urgent && inside ==>
                    && (forall v ::
                          AvailableAt(u, z, start, end, urgent) == Available(v) <==> Resolve(z, t) == Unique(v))
                    && (!Resolve(z, t).Unique? <==> AvailableAt(u, z, start, end, urgent).Unresolvable?))
  {
    hide Resolve, Wall;
    if start.Some? && end.Some? && 0 <= start.value < 1440 && 0 <= end.value < 1440 && start.value != end.value {
      QuietMinutes(Wall(z, u), start.value, end.value);
      OnlyTimeAt(Wall(z, u), end.value, t);
    }
  }

  lemma OnlyTimeAt(wall: int, minute: int, t: int)
    requires 0 <= minute < 1440 && wall < t <= wall + DAY && t % DAY == minute * MINUTE
    ensures NextTimeAt(wall, minute) == t
  {
    NextTimeIsFirst(wall, minute, t);
  }

  method QuietHoursAvailableAt(u: int, z: Zone, start: Option<int>, end: Option<int>, urgent: bool)
    returns (r: Availability)
    ensures r == AvailableAt(u, z, start, end, urgent)
  {
    if start.None? && end.None? {
      return Available(u);
    }
    if !ValidWindow(start, end) {
      return InvalidWindow;
    }
    if urgent {
      return Available(u);
    }
    var local := Wall(z, u);
    var minute := MinuteOfDay(local);
    var inQuietHours;
    var targetDay := local - local % DAY;
    if start.value < end.value {
      inQuietHours := start.value <= minute < end.value;
    } else {
      inQuietHours := minute >= start.value || minute < end.value;
      if minute >= start.value {
        targetDay := targetDay + DAY;
      }
    }
    if !inQuietHours {
      return Available(u);
    }
    var resolution := ResolveLocalTime(z, targetDay + end.value * MINUTE);
    match resolution
    case Unique(v) => return Available(v);
    case reason => return Unresolvable(reason);
  }
}
