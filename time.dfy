/** Time helpers shared by the search and the booking flow (src/utils/time.ts). */
module Time {
  import opened Strings

  const MinuteMs: int := 60000

  /** Minutes to milliseconds; exactly invertible, since every result is a whole number of
      minutes. */
  function MinutesToMs(minutes: int): (ms: int)
    ensures ms % MinuteMs == 0 && ms / MinuteMs == minutes
    ensures minutes >= 0 ==> ms >= 0
  {
    minutes * MinuteMs
  }

  /** An ISO 8601 date-time as the model sees it: the text the caller sent (which carries the
      UTC offset) and the instant it denotes. Parsing the calendar part of the text is not part
      of this model; `epochMs` stands for the result of `Date.parse(text)`. */
  datatype IsoDateTime = IsoDateTime(text: string, epochMs: int)

  /** The suffix `±HH:MM` matched by the offset pattern, anchored at the end of `s`. */
  predicate HasOffsetSuffix(s: string) {
    |s| >= 6
    && (s[|s| - 6] == '+' || s[|s| - 6] == '-')
    && IsDigit(s[|s| - 5]) && IsDigit(s[|s| - 4])
    && s[|s| - 3] == ':'
    && IsDigit(s[|s| - 2]) && IsDigit(s[|s| - 1])
  }

  /** The UTC offset in minutes written at the end of an ISO string: 0 for a trailing `Z` or
      for a string with no `±HH:MM` suffix, otherwise sign times (hours * 60 + minutes). The
      digits are not range-checked. */
  function ExtractTimezoneOffsetMinutes(iso: string): (offset: int)
    ensures |iso| > 0 && iso[|iso| - 1] == 'Z' ==> offset == 0
    ensures !HasOffsetSuffix(iso) ==> offset == 0
    ensures -(99 * 60 + 99) <= offset <= 99 * 60 + 99
  {
    if |iso| > 0 && iso[|iso| - 1] == 'Z' then 0
    else if !HasOffsetSuffix(iso) then 0
    else
      var n := |iso|;
      var hours := DigitValue(iso[n - 5]) * 10 + DigitValue(iso[n - 4]);
      var minutes := DigitValue(iso[n - 2]) * 10 + DigitValue(iso[n - 1]);
      if iso[n - 6] == '-' then -(hours * 60 + minutes) else hours * 60 + minutes
  }

  /** The canonical `±HH:MM` spelling of an offset of fewer than 100 hours. */
  function OffsetSuffix(offset: int): (s: string)
    requires -6000 < offset < 6000
    ensures |s| == 6 && HasOffsetSuffix(s)
  {
    var a := if offset < 0 then -offset else offset;
    (if offset < 0 then "-" else "+") + Pad2(a / 60) + ":" + Pad2(a % 60)
  }

  /** Writing an offset after any date-time text and reading it back gives the offset. */
  lemma OffsetRoundTrip(prefix: string, offset: int)
    requires -6000 < offset < 6000
    ensures ExtractTimezoneOffsetMinutes(prefix + OffsetSuffix(offset)) == offset
  {
    var a := if offset < 0 then -offset else offset;
    var s := prefix + OffsetSuffix(offset);
    var n := |s|;
    var h := Pad2(a / 60);
    var m := Pad2(a % 60);
    assert s[n - 5..n - 3] == h && s[n - 2..] == m;
    assert h[..1] == [h[0]] && h[..1][..0] == [] && m[..1] == [m[0]] && m[..1][..0] == [];
    assert DigitValue(s[n - 5]) * 10 + DigitValue(s[n - 4]) == a / 60;
    assert DigitValue(s[n - 2]) * 10 + DigitValue(s[n - 1]) == a % 60;
  }
}
