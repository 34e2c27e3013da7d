/**
 * `DateTime.UtcNow` as a value and its rendering with the custom format
 * `yyyyMMddHHmmssffff` (four-digit year, two digits each for month, day, hour, minute and
 * second, then the first four digits of the fraction of a second, truncated).
 */
module Timestamps {
  import opened Text

  /** A UTC instant; `ticks` counts the 100-nanosecond ticks within the second. */
  datatype DateTime = DateTime(year: nat, month: nat, day: nat, hour: nat, minute: nat, second: nat, ticks: nat) {
    /** The range `System.DateTime` admits for each component. */
    predicate Valid() {
      && 1 <= year <= 9999 && 1 <= month <= 12 && 1 <= day <= 31
      && hour < 24 && minute < 60 && second < 60 && ticks < 10_000_000
    }
  }

  /** `$"{t:yyyyMMddHHmmssffff}"`. */
  function FormatTimestamp(t: DateTime): (s: string)
    ensures |s| == 18 && AllDigits(s)
  {
    PadDigits(t.year, 4) + PadDigits(t.month, 2) + PadDigits(t.day, 2)
    + PadDigits(t.hour, 2) + PadDigits(t.minute, 2) + PadDigits(t.second, 2)
    + PadDigits(t.ticks / 1000, 4)
  }

  /** Every component of a valid instant can be read back from its fixed position in the
      rendering, so the rendering identifies the instant up to a ten-thousandth of a second. */
  lemma FormatTimestampFields(t: DateTime)
    requires t.Valid()
    ensures var s := FormatTimestamp(t);
      && ParseNat(s[0..4]) == t.year && ParseNat(s[4..6]) == t.month && ParseNat(s[6..8]) == t.day
      && ParseNat(s[8..10]) == t.hour && ParseNat(s[10..12]) == t.minute
      && ParseNat(s[12..14]) == t.second && ParseNat(s[14..18]) == t.ticks / 1000
  {
    var s := FormatTimestamp(t);
    assert s[0..4] == PadDigits(t.year, 4);
    assert s[4..6] == PadDigits(t.month, 2);
    assert s[6..8] == PadDigits(t.day, 2);
    assert s[8..10] == PadDigits(t.hour, 2);
    assert s[10..12] == PadDigits(t.minute, 2);
    assert s[12..14] == PadDigits(t.second, 2);
    assert s[14..18] == PadDigits(t.ticks / 1000, 4);
    assert Pow10(2) == 100 && Pow10(4) == 10000 by {
      assert Pow10(1) == 10;
      assert Pow10(3) == 1000;
    }
    ParsePadDigits(t.year, 4);
    ParsePadDigits(t.month, 2);
    ParsePadDigits(t.day, 2);
    ParsePadDigits(t.hour, 2);
    ParsePadDigits(t.minute, 2);
    ParsePadDigits(t.second, 2);
    ParsePadDigits(t.ticks / 1000, 4);
  }
}
