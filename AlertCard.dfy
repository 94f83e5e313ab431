/** One alert card: its colour classes and icon chosen by the alert's type,
    the relative age shown under the message, and the dismiss button. */
module AlertCard {
  import opened Text
  import opened Dates

  /** An entry of the alerts list; `kind` is the alert's `type` field. */
  datatype Alert = Alert(id: int, kind: string, title: string, message: string, timestamp: Date)

  /** The cases of the two `switch (alert.type)` statements. */
  datatype Kind = Critical | Warning | Info | Other

  function KindOf(kind: string): (k: Kind)
    ensures k == Critical <==> kind == "critical"
    ensures k == Warning <==> kind == "warning"
    ensures k == Info <==> kind == "info"
  {
    if kind == "critical" then Critical
    else if kind == "warning" then Warning
    else if kind == "info" then Info
    else Other
  }

  datatype Glyph = AlertTriangle | AlertCircle | InfoCircle

  /** An icon component and its class name. */
  datatype Icon = Icon(glyph: Glyph, className: string)

  /** The icon of each case of `getAlertIcon()`. */
  function IconFor(k: Kind): Icon
  {
    match k
    case Critical => Icon(AlertTriangle, "w-5 h-5 text-red-600")
    case Warning => Icon(AlertCircle, "w-5 h-5 text-amber-600")
    case Info => Icon(InfoCircle, "w-5 h-5 text-green-600")
    case Other => Icon(InfoCircle, "w-5 h-5 text-gray-600")
  }

  /** `getAlertIcon()`. */
  function AlertIcon(kind: string): Icon
  {
    IconFor(KindOf(kind))
  }

  /** The class string of each case of `getAlertClasses()`. */
  function ClassesFor(k: Kind): string
  {
    match k
    case Critical => "alert-critical border-l-4 border-red-500"
    case Warning => "alert-warning border-l-4 border-amber-500"
    case Info => "alert-info border-l-4 border-green-500"
    case Other => "bg-gray-50 border-gray-200 text-gray-800 border-l-4 border-gray-500"
  }

  /** `getAlertClasses()`. */
  function AlertClasses(kind: string): string
  {
    ClassesFor(KindOf(kind))
  }

  /** The four cases have four different class strings and four different icons. */
  lemma StylesDistinct(j: Kind, k: Kind)
    requires j != k
    ensures ClassesFor(j) != ClassesFor(k) && IconFor(j) != IconFor(k)
  {
    StyleSizes(j);
    StyleSizes(k);
  }

  /** The lengths of the class strings, which already tell the cases apart. */
  lemma StyleSizes(k: Kind)
    ensures |ClassesFor(k)| == match k case Critical => 40 case Warning => 41 case Info => 38 case Other => 67
    ensures |IconFor(k).className| == match k case Critical => 20 case Warning => 22 case Info => 22 case Other => 21
  {
    match k
    case Critical =>
    case Warning =>
    case Info =>
    case Other =>
  }

  /** Each of the three known types has its own classes and icon; every
      other type, and only those, falls through to the gray default. */
  lemma StylesByKind(a: string, b: string)
    ensures AlertClasses(a) == ClassesFor(Other) <==> a != "critical" && a != "warning" && a != "info"
    ensures AlertIcon(a) == IconFor(Other) <==> a != "critical" && a != "warning" && a != "info"
    ensures KindOf(a) != KindOf(b) ==> AlertClasses(a) != AlertClasses(b) && AlertIcon(a) != AlertIcon(b)
  {
    if KindOf(a) != Other {
      StylesDistinct(KindOf(a), Other);
    }
    if KindOf(a) != KindOf(b) {
      StylesDistinct(KindOf(a), KindOf(b));
    }
  }

  /** `diffInHours`: whole hours from `timestamp` to `now`, rounded down;
      negative for a timestamp in the future. */
  function HoursSince(now: int, t: int): int
  {
    FloorHours(now - t)
  }

  /** `formatTimestamp(timestamp)` at the instant `now`. An invalid date makes
      every comparison false and renders as `NaNd ago`. */
  function FormatTimestamp(now: int, timestamp: Date): string
  {
    match timestamp
    case Invalid => "NaNd ago"
    case At(t) =>
      var h := HoursSince(now, t);
      if h < 1 then "Just now"
      else if h < 24 then NatToString(h) + "h ago"
      else NatToString(h / 24) + "d ago"
  }

  /** Anything less than one hour old, the future included, is "Just now". */
  lemma JustNowBucket(now: int, t: int)
    ensures FormatTimestamp(now, At(t)) == "Just now" <==> now - t < HourMs
  {
    var h := HoursSince(now, t);
    if h >= 1 {
      NatToStringDigits(if h < 24 then h else h / 24);
      var r := FormatTimestamp(now, At(t));
      assert r[|r| - 1] == 'o';
    }
  }

  /** Between one and 24 hours the card shows the whole hours elapsed,
      as digits followed by "h ago". */
  lemma HoursBucket(now: int, t: int)
    requires HourMs <= now - t < 24 * HourMs
    ensures var r := FormatTimestamp(now, At(t)); var h := HoursSince(now, t);
      && 1 <= h < 24
      && EndsWith(r, "h ago")
      && AllDigits(r[..|r| - 5]) && DigitsValue(r[..|r| - 5]) == h
  {
    var h := HoursSince(now, t);
    var r := FormatTimestamp(now, At(t));
    assert 1 <= h < 24;
    NatToStringRoundTrip(h);
    assert r[..|r| - 5] == NatToString(h);
  }

  /** From 24 hours on the card shows the whole days elapsed, as digits
      followed by "d ago". */
  lemma DaysBucket(now: int, t: int)
    requires now - t >= 24 * HourMs
    ensures var r := FormatTimestamp(now, At(t)); var d := HoursSince(now, t) / 24;
      && 24 * HourMs * d <= now - t < 24 * HourMs * (d + 1)
      && EndsWith(r, "d ago")
      && AllDigits(r[..|r| - 5]) && DigitsValue(r[..|r| - 5]) == d
  {
    var h := HoursSince(now, t);
    var d := h / 24;
    var r := FormatTimestamp(now, At(t));
    assert h >= 24;
    assert 24 * d <= h < 24 * (d + 1);
    assert HourMs * h <= now - t < HourMs * (h + 1);
    assert 24 * HourMs * d <= now - t by {
      assert HourMs * (24 * d) <= HourMs * h;
    }
    assert now - t < 24 * HourMs * (d + 1) by {
      assert h + 1 <= 24 * (d + 1);
      assert HourMs * (h + 1) <= HourMs * (24 * (d + 1));
    }
    NatToStringRoundTrip(d);
    assert r[..|r| - 5] == NatToString(d);
  }

  /** Two timestamps shown as the same "Nh ago" are the same whole number
      of hours old. */
  lemma HoursLabelDeterminesAge(now: int, t1: int, t2: int)
    requires HourMs <= now - t1 < 24 * HourMs && HourMs <= now - t2 < 24 * HourMs
    requires FormatTimestamp(now, At(t1)) == FormatTimestamp(now, At(t2))
    ensures HoursSince(now, t1) == HoursSince(now, t2)
  {
    var r := FormatTimestamp(now, At(t1));
    HoursBucket(now, t1);
    HoursBucket(now, t2);
  }

  /** `handleDismiss()`: the argument passed to `dismissAlert`. */
  function HandleDismiss(alert: Alert): (id: int)
    ensures id == alert.id
  {
    alert.id
  }
}
