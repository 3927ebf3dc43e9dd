/** The coarse buckets in which the frontend groups the WMO weather interpretation
    codes (the subset of WMO code table 4677 that Open-Meteo reports). */
module WeatherCodes {

  datatype Category =
    | ClearSky       // 0, 1
    | PartlyCloudy   // 2, 3
    | Fog            // 45 to 48
    | Rain           // 51 to 67
    | Snow           // 71 to 77
    | Showers        // 80 to 82
    | Thunderstorm   // 95 and above
    | Fallback       // every other code

  /** The range table: the codes each bucket claims. `Fallback` claims none of its
      own; it is what is left over. */
  predicate InBand(c: Category, code: int)
  {
    match c
    case ClearSky => code == 0 || code == 1
    case PartlyCloudy => code == 2 || code == 3
    case Fog => 45 <= code <= 48
    case Rain => 51 <= code <= 67
    case Snow => 71 <= code <= 77
    case Showers => 80 <= code <= 82
    case Thunderstorm => 95 <= code
    case Fallback => false
  }

  /** The first-match classification the three emoji functions share: a code
      lands in the bucket whose range holds it, and in `Fallback` exactly when
      no range does (the converse of the second clause follows from the first). */
  function Classify(code: int): (c: Category)
    ensures c != Fallback ==> InBand(c, code)
    ensures c == Fallback ==> forall b :: !InBand(b, code)
  {
    if code == 0 || code == 1 then ClearSky
    else if code == 2 || code == 3 then PartlyCloudy
    else if 45 <= code <= 48 then Fog
    else if 51 <= code <= 67 then Rain
    else if 71 <= code <= 77 then Snow
    else if 80 <= code <= 82 then Showers
    else if code >= 95 then Thunderstorm
    else Fallback
  }

  /** The ranges do not overlap, so the order of the tests does not matter and a
      code that a range holds is classified by that range. */
  lemma ClassifyByBand(code: int, c: Category)
    requires InBand(c, code)
    ensures Classify(code) == c
  {
  }

  /** Codes that fall through to the default glyph: the gaps between the ranges
      (4 to 44, 49, 50, 68 to 70, 78, 79, 83 to 94) and every negative code. */
  lemma FallbackCodes(code: int)
    ensures Classify(code) == Fallback <==>
      code < 0 || 4 <= code <= 44 || 49 <= code <= 50 || 68 <= code <= 70 ||
      78 <= code <= 79 || 83 <= code <= 94
  {
  }

  /** The thunderstorm range is open-ended: every code from 95 up, including
      values above the largest WMO code 99. */
  lemma ThunderstormOpenEnded(code: int)
    requires code >= 95
    ensures Classify(code) == Thunderstorm
  {
  }
}
