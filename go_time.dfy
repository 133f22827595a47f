/** The reading of Go's clock that the back end uses: `time.Now()` is passed in
    as an `Instant`, and `Format` with the layouts the source uses becomes a
    function per layout. */
module GoTime {
  import opened GoRuntime

  datatype Time = Time(year: int, month: int, day: int, hour: int, minute: int, second: int,
                       nanosecond: int, unix: int)

  /** The calendar fields of a Go `time.Time` are in range; the model keeps to four-digit years. */
  predicate WellFormed(t: Time) {
    && 0 <= t.year <= 9999 && 1 <= t.month <= 12 && 1 <= t.day <= 31
    && 0 <= t.hour < 24 && 0 <= t.minute < 60 && 0 <= t.second < 60
    && 0 <= t.nanosecond < 1_000_000_000
    && -0x8000_0000_0000_0000 <= t.unix < 0x8000_0000_0000_0000
  }

  type Instant = t: Time | WellFormed(t) witness Time(1970, 1, 1, 0, 0, 0, 0, 0)

  predicate AllDigits(s: string) {
    forall i | 0 <= i < |s| :: '0' <= s[i] <= '9'
  }

  /** `t.Format("20060102")`. */
  function FormatDate(t: Instant): (s: GoString)
    ensures |s| == 8 && AllDigits(s)
  {
    Pad4(t.year) + Pad2(t.month) + Pad2(t.day)
  }

  /** `t.Format("150405")`. */
  function FormatClock(t: Instant): (s: GoString)
    ensures |s| == 6 && AllDigits(s)
  {
    Pad2(t.hour) + Pad2(t.minute) + Pad2(t.second)
  }

  /** `t.Format("20060102150405")`. */
  function FormatDateTime(t: Instant): (s: GoString)
    ensures |s| == 14 && AllDigits(s)
    ensures s[..8] == FormatDate(t) && s[8..] == FormatClock(t)
  {
    FormatDate(t) + FormatClock(t)
  }

  /** `t.Format("20060102_150405")`. */
  function FormatStamp(t: Instant): (s: GoString)
    ensures |s| == 15 && s[8] == '_'
    ensures s[..8] == FormatDate(t) && s[9..] == FormatClock(t)
  {
    FormatDate(t) + "_" + FormatClock(t)
  }
}
