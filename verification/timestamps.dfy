/** Rendering of the `created` timestamp by the annotation serializer, with
    the pattern `%Y/%m/%d %H:%M:%S.%f`, and the parser that inverts it. */
module Timestamps {
  import opened Values

  function Pow10(w: nat): (r: nat)
    ensures r >= 1
  {
    if w == 0 then 1 else 10 * Pow10(w - 1)
  }

  predicate IsDigit(c: char) { '0' <= c <= '9' }

  predicate AllDigits(s: string) {
    forall i :: 0 <= i < |s| ==> IsDigit(s[i])
  }

  /** `n` in decimal, zero-padded on the left to exactly `w` digits. */
  function Pad(n: nat, w: nat): (r: string)
    requires n < Pow10(w)
    ensures |r| == w && AllDigits(r)
  {
    if w == 0 then ""
    else Pad(n / 10, w - 1) + [(('0' as int) + n % 10) as char]
  }

  /** The value of a string of decimal digits. */
  function ParseDigits(s: string): nat
    requires AllDigits(s)
  {
    if s == [] then 0
    else 10 * ParseDigits(s[..|s| - 1]) + ((s[|s| - 1] as int) - ('0' as int))
  }

  lemma {:induction false} ParsePad(n: nat, w: nat)
    requires n < Pow10(w)
    ensures ParseDigits(Pad(n, w)) == n
  {
    if w > 0 {
      var p := Pad(n, w);
      assert p[..w - 1] == Pad(n / 10, w - 1);
      ParsePad(n / 10, w - 1);
    }
  }

  /** `created.strftime('%Y/%m/%d %H:%M:%S.%f')`: 26 characters, digits
      except for the separators at fixed positions. */
  function FormatCreated(dt: Timestamp): (r: string)
    ensures |r| == 26
    ensures r[4] == '/' && r[7] == '/' && r[10] == ' ' && r[13] == ':' && r[16] == ':' && r[19] == '.'
    ensures forall i :: 0 <= i < 26 && i !in {4, 7, 10, 13, 16, 19} ==> IsDigit(r[i])
  {
    Pad(dt.year, 4) + "/" + Pad(dt.month, 2) + "/" + Pad(dt.day, 2) + " " +
    Pad(dt.hour, 2) + ":" + Pad(dt.minute, 2) + ":" + Pad(dt.second, 2) + "." +
    Pad(dt.microsecond, 6)
  }

  /** Reads back a string in the serializer's timestamp pattern. */
  function ParseCreated(s: string): (r: Option<Timestamp>)
    ensures r.Some? ==> |s| == 26
  {
    if |s| == 26 && s[4] == '/' && s[7] == '/' && s[10] == ' ' && s[13] == ':' && s[16] == ':' && s[19] == '.'
       && AllDigits(s[0..4]) && AllDigits(s[5..7]) && AllDigits(s[8..10]) && AllDigits(s[11..13])
       && AllDigits(s[14..16]) && AllDigits(s[17..19]) && AllDigits(s[20..26])
    then
      var dt := DateTime(ParseDigits(s[0..4]), ParseDigits(s[5..7]), ParseDigits(s[8..10]),
                         ParseDigits(s[11..13]), ParseDigits(s[14..16]), ParseDigits(s[17..19]),
                         ParseDigits(s[20..26]));
      if ValidDateTime(dt) then Some(dt) else None
    else None
  }

  /** The rendered timestamp determines the timestamp: parsing it back gives
      every component, microseconds included. */
  lemma CreatedRoundTrip(dt: Timestamp)
    ensures ParseCreated(FormatCreated(dt)) == Some(dt)
  {
    var s := FormatCreated(dt);
    assert s[0..4] == Pad(dt.year, 4);
    assert s[5..7] == Pad(dt.month, 2);
    assert s[8..10] == Pad(dt.day, 2);
    assert s[11..13] == Pad(dt.hour, 2);
    assert s[14..16] == Pad(dt.minute, 2);
    assert s[17..19] == Pad(dt.second, 2);
    assert s[20..26] == Pad(dt.microsecond, 6);
    ParsePad(dt.year, 4);
    ParsePad(dt.month, 2);
    ParsePad(dt.day, 2);
    ParsePad(dt.hour, 2);
    ParsePad(dt.minute, 2);
    ParsePad(dt.second, 2);
    ParsePad(dt.microsecond, 6);
  }

  /** Two timestamps render alike only if they are the same timestamp. */
  lemma FormatCreatedInjective(a: Timestamp, b: Timestamp)
    requires FormatCreated(a) == FormatCreated(b)
    ensures a == b
  {
    CreatedRoundTrip(a);
    CreatedRoundTrip(b);
  }
}
