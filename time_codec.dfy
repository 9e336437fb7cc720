/**
 * `DateTime` (gtfs.go): a GTFS time of day held as an `int32` count of seconds
 * since midnight, with its CSV text form `HH:MM:SS` and its database form
 * `int64`. Go's integer semantics are written out: `/` and `%` truncate toward
 * zero, `hours*3600 + ...` is computed in 64-bit `int`, and `int32(i)` keeps
 * the low 32 bits.
 *
 * The code as written (`DecodeAsWritten`, `ScanAsWritten`) wraps totals
 * below the 32-bit range, wraps sums beyond 64 bits, and quotes the hours
 * field in its minutes and seconds messages. The `DateTime` class uses the corrected decoders
 * (`Decode`, `ScanValue`), which reject such totals and quote the field
 * that failed; the lemmas beside them exhibit the difference.
 */
module TimeCodec {
  import opened Wrappers
  import opened Text
  import opened Entities

  const MinInt32: int := -0x8000_0000
  const MaxInt32: int := 0x7fff_ffff

  type Int32 = x: int | MinInt32 <= x <= MaxInt32
  type Int64 = x: int | MinInt64 <= x <= MaxInt64

  /** Conversion of an integer to `int64` (two's complement wrap-around). */
  function Wrap64(x: int): (r: Int64)
    ensures MinInt64 <= x <= MaxInt64 ==> r == x
  {
    (x - MinInt64) % 0x1_0000_0000_0000_0000 + MinInt64
  }

  /** Conversion `int32(i)`: keeps the low 32 bits. */
  function Wrap32(x: int): (r: Int32)
    ensures MinInt32 <= x <= MaxInt32 ==> r == x
    ensures (r - x) % 0x1_0000_0000 == 0
  {
    (x - MinInt32) % 0x1_0000_0000 + MinInt32
  }

  /**
   * The three clock fields `MarshalCSV` prints for `v`: Go's `v / 3600`,
   * `(v % 3600) / 60` and `(v % 3600) % 60`, where `/` truncates toward zero
   * and `%` takes the sign of the dividend.
   */
  function Clock(v: Int32): (c: (int, int, int))
    ensures c.0 * 3600 + c.1 * 60 + c.2 == v
    ensures 0 <= v ==> 0 <= c.0 && 0 <= c.1 < 60 && 0 <= c.2 < 60
    ensures v < 0 ==> c.0 <= 0 && -60 < c.1 <= 0 && -60 < c.2 <= 0
  {
    var v: int := v;
    var hours := if 0 <= v then v / 3600 else -((-v) / 3600);
    var rest := v - 3600 * hours;
    var minutes := if 0 <= rest then rest / 60 else -((-rest) / 60);
    (hours, minutes, rest - 60 * minutes)
  }

  /** The hours field lies between 0 and the value, so it fits the `int32` range too. */
  lemma ClockHoursBound(v: Int32)
    ensures MinInt32 <= Clock(v).0 <= MaxInt32
  {
    var c := Clock(v);
    if 0 <= v {
      assert c.0 <= c.0 * 3600 <= v;
    } else {
      assert v <= c.0 * 3600 <= c.0;
    }
  }

  /**
   * `fmt.Sprintf("%02d", n)`: at least two characters, zero-padded after the
   * sign; a negative number is already two characters wide.
   */
  function Pad2(n: int): (s: string)
    ensures 2 <= |s| && ':' !in s
    ensures 0 <= n ==> AllDigits(s)
    ensures 0 <= n < 100 ==> s == [DigitChar(n / 10), DigitChar(n % 10)]
  {
    if n < 0 then "-" + Decimal(-n)
    else if n < 10 then "0" + Decimal(n)
    else Decimal(n)
  }

  /** `strconv.Atoi` reads back what `%02d` printed. */
  lemma AtoiPad2(n: int)
    requires MinInt64 <= n <= MaxInt64
    ensures Atoi(Pad2(n)) == Some(n)
  {
    AtoiDecimal(n);
    if 0 <= n < 10 {
      DigitsValueLeadingZero(Decimal(n));
    }
  }

  /**
   * `MarshalCSV`: the text `HH:MM:SS` of a time value. For a non-negative
   * value the minutes and seconds are two characters each, so the colons sit
   * six and three places from the end.
   */
  function Encode(v: Int32): (csv: string)
    ensures 0 <= v ==> 8 <= |csv| && csv[|csv| - 6] == ':' && csv[|csv| - 3] == ':'
  {
    var c := Clock(v);
    Pad2(c.0) + ":" + Pad2(c.1) + ":" + Pad2(c.2)
  }

  /** Cutting a text made of three colon-free fields at its colons gives the fields back. */
  lemma SplitClockText(h: string, m: string, s: string)
    requires ':' !in h && ':' !in m && ':' !in s
    ensures Split(h + ":" + m + ":" + s, ':') == [h, m, s]
  {
    assert [h, m, s][1..] == [m, s] && [m, s][1..] == [s];
    assert Join([m, s], ':') == m + [':'] + s;
    assert Join([h, m, s], ':') == h + [':'] + (m + [':'] + s);
    assert h + ":" + m + ":" + s == Join([h, m, s], ':');
    SplitJoin([h, m, s], ':');
  }

  /** The text splits at its two colons into the three printed clock fields. */
  lemma EncodeSplits(v: Int32)
    ensures var c := Clock(v); Split(Encode(v), ':') == [Pad2(c.0), Pad2(c.1), Pad2(c.2)]
  {
    var c := Clock(v);
    SplitClockText(Pad2(c.0), Pad2(c.1), Pad2(c.2));
  }

  /** The printed fields add up to the value: `Atoi` reads each back and hours·3600 + minutes·60 + seconds is `v`. */
  lemma EncodeTotal(v: Int32)
    ensures Total(Encode(v)) == Some(v as int)
  {
    var c := Clock(v);
    ClockHoursBound(v);
    TotalPrinted(c.0, c.1, c.2);
  }

  /** Three numbers printed with `%02d` and joined by colons total back to h·3600 + m·60 + s. */
  lemma TotalPrinted(h: int, m: int, s: int)
    requires MinInt64 <= h <= MaxInt64 && MinInt64 <= m <= MaxInt64 && MinInt64 <= s <= MaxInt64
    ensures Total(Pad2(h) + ":" + Pad2(m) + ":" + Pad2(s)) == Some(h * 3600 + m * 60 + s)
  {
    AtoiPad2(h);
    AtoiPad2(m);
    AtoiPad2(s);
    TotalClockText(Pad2(h), Pad2(m), Pad2(s), h, m, s);
  }

  /** A non-negative value prints as digits `H..H:MM:SS`: around its two colons every character is a digit. */
  lemma EncodeLayout(v: Int32)
    requires 0 <= v
    ensures var csv := Encode(v);
      && AllDigits(csv[..|csv| - 6]) && AllDigits(csv[|csv| - 5..|csv| - 3]) && AllDigits(csv[|csv| - 2..])
  {
    var c := Clock(v);
    var h, m, s := Pad2(c.0), Pad2(c.1), Pad2(c.2);
    var csv := Encode(v);
    assert csv[..|csv| - 6] == h;
    assert csv[|csv| - 5..|csv| - 3] == m;
    assert csv[|csv| - 2..] == s;
  }

  /** Why `UnmarshalCSV` rejects a text. */
  datatype TimeError =
    | FieldCount(csv: string)
    | BadHours(quoted: string)
    | BadMinutes(quoted: string)
    | BadSeconds(quoted: string)
    | RangeExceeded(csv: string)

  /** The exact clock total of a text made of three integer fields, before any range check. */
  function Total(csv: string): Option<int> {
    var f := Split(csv, ':');
    if |f| == 3 && Atoi(f[0]).Some? && Atoi(f[1]).Some? && Atoi(f[2]).Some? then
      Some(Atoi(f[0]).value * 3600 + Atoi(f[1]).value * 60 + Atoi(f[2]).value)
    else None
  }

  /**
   * `UnmarshalCSV` as written: the sum is wrapped to 64 bits, only its upper
   * bound is checked, and `int32(i)` wraps whatever lies below the 32-bit
   * range; the minutes and seconds messages quote the hours field.
   */
  function DecodeAsWritten(csv: string): (r: Result<Int32, TimeError>)
    ensures |Split(csv, ':')| != 3 <==> r == Failure(FieldCount(csv))
    ensures r.Success? <==> Total(csv).Some? && Wrap64(Total(csv).value) <= MaxInt32
    ensures r.Success? ==> r.value == Wrap32(Wrap64(Total(csv).value))
    ensures r.Failure? && r.error.BadMinutes? ==> r.error.quoted == Split(csv, ':')[0]
    ensures r.Failure? && r.error.BadSeconds? ==> r.error.quoted == Split(csv, ':')[0]
  {
    var f := Split(csv, ':');
    if |f| != 3 then Failure(FieldCount(csv))
    else match Atoi(f[0])
      case None => Failure(BadHours(f[0]))
      case Some(hours) => match Atoi(f[1])
        case None => Failure(BadMinutes(f[0]))
        case Some(minutes) => match Atoi(f[2])
          case None => Failure(BadSeconds(f[0]))
          case Some(seconds) =>
            assert Total(csv) == Some(hours * 3600 + minutes * 60 + seconds);
            var i := Wrap64(hours * 3600 + minutes * 60 + seconds);
            if i > MaxInt32 then Failure(RangeExceeded(csv)) else Success(Wrap32(i))
  }

  /**
   * `UnmarshalCSV` as evidently intended: three integer fields whose exact
   * total fits an `int32`; each message quotes the field it is about.
   */
  function Decode(csv: string): (r: Result<Int32, TimeError>)
    ensures r.Success? <==> Total(csv).Some? && MinInt32 <= Total(csv).value <= MaxInt32
    ensures r.Success? ==> r.value == Total(csv).value
    ensures |Split(csv, ':')| != 3 <==> r == Failure(FieldCount(csv))
    ensures r.Failure? && r.error.BadHours? ==> r.error.quoted == Split(csv, ':')[0]
    ensures r.Failure? && r.error.BadMinutes? ==> r.error.quoted == Split(csv, ':')[1]
    ensures r.Failure? && r.error.BadSeconds? ==> r.error.quoted == Split(csv, ':')[2]
    ensures var f := Split(csv, ':');
      |f| == 3 && Atoi(f[0]).None? ==> r == Failure(BadHours(f[0]))
    ensures var f := Split(csv, ':');
      |f| == 3 && Atoi(f[0]).Some? && Atoi(f[1]).None? ==> r == Failure(BadMinutes(f[1]))
    ensures var f := Split(csv, ':');
      |f| == 3 && Atoi(f[0]).Some? && Atoi(f[1]).Some? && Atoi(f[2]).None? ==> r == Failure(BadSeconds(f[2]))
    ensures Total(csv).Some? && !(MinInt32 <= Total(csv).value <= MaxInt32) ==> r == Failure(RangeExceeded(csv))
  {
    var f := Split(csv, ':');
    if |f| != 3 then Failure(FieldCount(csv))
    else match Atoi(f[0])
      case None => Failure(BadHours(f[0]))
      case Some(hours) => match Atoi(f[1])
        case None => Failure(BadMinutes(f[1]))
        case Some(minutes) => match Atoi(f[2])
          case None => Failure(BadSeconds(f[2]))
          case Some(seconds) =>
            var i := hours * 3600 + minutes * 60 + seconds;
            if i < MinInt32 || i > MaxInt32 then Failure(RangeExceeded(csv)) else Success(i)
  }

  /** Decoding a text made of three integer fields. */
  lemma DecodeClockText(h: string, m: string, s: string, hv: int, mv: int, sv: int, total: int)
    requires ':' !in h && ':' !in m && ':' !in s
    requires Atoi(h) == Some(hv) && Atoi(m) == Some(mv) && Atoi(s) == Some(sv)
    requires total == hv * 3600 + mv * 60 + sv && MinInt32 <= total <= MaxInt32
    ensures Decode(h + ":" + m + ":" + s) == Success(total)
  {
    SplitClockText(h, m, s);
    var f := Split(h + ":" + m + ":" + s, ':');
    assert f[0] == h && f[1] == m && f[2] == s;
  }

  /** Round trip: parsing the text of any time value gives the value back. */
  lemma DecodeEncode(v: Int32)
    ensures Decode(Encode(v)) == Success(v)
  {
    EncodeTotal(v);
  }

  /**
   * Decoding is idempotent through the printer: a text that decodes, printed
   * back and decoded again, gives the same value, although the text itself
   * may change ("7:5:3" prints as "07:05:03").
   */
  lemma DecodeEncodeDecode(csv: string)
    requires Decode(csv).Success?
    ensures Decode(Encode(Decode(csv).value)) == Decode(csv)
  {
    DecodeEncode(Decode(csv).value);
  }

  /** Where the total fits 32 bits, the code as written agrees with the intended decoder. */
  lemma DecodeAsWrittenAgrees(csv: string)
    requires Total(csv).Some? && MinInt32 <= Total(csv).value <= MaxInt32
    ensures DecodeAsWritten(csv) == Decode(csv) == Success(Total(csv).value)
  {
  }

  /** A non-negative value is printed from its hours, minutes below 60 and seconds below 60. */
  lemma EncodeFields(v: Int32, h: int, m: int, s: int)
    requires 0 <= h && 0 <= m < 60 && 0 <= s < 60 && h * 3600 + m * 60 + s == v
    ensures Clock(v) == (h, m, s)
    ensures Encode(v) == Pad2(h) + ":" + Pad2(m) + ":" + Pad2(s)
  {
    var w: int := v;
    assert 3600 * h <= w < 3600 * h + 3600;
    assert w / 3600 == h;
    assert (w - 3600 * h) / 60 == m;
  }

  /** Unit-test example of `MarshalCSV`: midnight. */
  lemma EncodeExampleMidnight()
    ensures Encode(0) == "00:00:00"
  {
    EncodeFields(0, 0, 0, 0);
    assert Pad2(0) == "00";
  }

  /** Unit-test example of `MarshalCSV`: an afternoon time. */
  lemma EncodeExampleAfternoon()
    ensures Encode(52621) == "14:37:01"
  {
    EncodeFields(52621, 14, 37, 1);
    assert Pad2(14) == "14" && Pad2(37) == "37" && Pad2(1) == "01";
  }

  /** Unit-test example of `MarshalCSV`: a time with zero seconds. */
  lemma EncodeExampleMorning()
    ensures Encode(41340) == "11:29:00"
  {
    EncodeFields(41340, 11, 29, 0);
    assert Pad2(11) == "11" && Pad2(29) == "29" && Pad2(0) == "00";
  }

  /** The zero fields of "0:00:00". */
  lemma AtoiZeros()
    ensures Atoi("0") == Some(0) && Atoi("00") == Some(0)
  {
    AtoiDecimal(0);
    AtoiTwoDigits("00");
  }

  /** Unit-test example of `UnmarshalCSV`: a one-digit hour is accepted. */
  lemma DecodeExampleMidnight()
    ensures Decode("0:00:00") == Success(0)
  {
    AtoiZeros();
    assert Split("0:00:00", ':') == ["0", "00", "00"] by {
      SplitClockText("0", "00", "00");
      assert "0" + ":" + "00" + ":" + "00" == "0:00:00";
    }
  }

  /** Unit-test example of `UnmarshalCSV`: "14:37:01" is 52621 seconds, the text `MarshalCSV` prints for it. */
  lemma DecodeExampleAfternoon()
    ensures Decode("14:37:01") == Success(52621)
  {
    AtoiTwoDigits("14");
    AtoiTwoDigits("37");
    AtoiTwoDigits("01");
    assert "14" + ":" + "37" + ":" + "01" == "14:37:01";
    DecodeClockText("14", "37", "01", 14, 37, 1, 52621);
  }

  /** Unit-test example of `UnmarshalCSV`: a letter in the hours field is rejected. */
  lemma DecodeExampleBadHours()
    ensures Decode("a4:37:01") == Failure(BadHours("a4"))
  {
    assert Split("a4:37:01", ':') == ["a4", "37", "01"] by {
      SplitClockText("a4", "37", "01");
      assert "a4" + ":" + "37" + ":" + "01" == "a4:37:01";
    }
    assert Atoi("a4") == None by { assert !IsDigit('a'); }
  }

  /** The exact total of a text made of three integer fields. */
  lemma TotalClockText(h: string, m: string, s: string, hv: int, mv: int, sv: int)
    requires ':' !in h && ':' !in m && ':' !in s
    requires Atoi(h) == Some(hv) && Atoi(m) == Some(mv) && Atoi(s) == Some(sv)
    ensures Total(h + ":" + m + ":" + s) == Some(hv * 3600 + mv * 60 + sv)
  {
    SplitClockText(h, m, s);
  }

  /** The code as written on a text made of three integer fields whose total fits 64 bits. */
  lemma DecodeAsWrittenClockText(h: string, m: string, s: string, hv: int, mv: int, sv: int, total: int)
    requires ':' !in h && ':' !in m && ':' !in s
    requires Atoi(h) == Some(hv) && Atoi(m) == Some(mv) && Atoi(s) == Some(sv)
    requires total == hv * 3600 + mv * 60 + sv && MinInt64 <= total <= MaxInt32
    ensures Total(h + ":" + m + ":" + s) == Some(total)
    ensures DecodeAsWritten(h + ":" + m + ":" + s) == Success(Wrap32(total))
  {
    var csv := h + ":" + m + ":" + s;
    assert Total(csv) == Some(total) by {
      TotalClockText(h, m, s, hv, mv, sv);
    }
    DecodeAsWrittenTotal(csv);
  }

  /** Where the 64-bit sum does not wrap and passes the upper check, `int32(i)` of it is returned. */
  lemma DecodeAsWrittenTotal(csv: string)
    requires Total(csv).Some? && MinInt64 <= Total(csv).value <= MaxInt32
    ensures DecodeAsWritten(csv) == Success(Wrap32(Total(csv).value))
  {
    assert Wrap64(Total(csv).value) == Total(csv).value;
  }

  /** The value `int32(i)` gives the total of the wrap-around finding. */
  lemma WrapMinusMillionHours()
    ensures Wrap32(-3600000000) == 694967296
  {
  }

  /** The digits of the hours field of the wrap-around finding. */
  lemma DecimalMillion()
    ensures Decimal(1000000) == "1000000"
  {
  }

  /** `strconv.Atoi` of the hours field of the wrap-around finding. */
  lemma AtoiMinusMillion()
    ensures Atoi("-1000000") == Some(-1000000)
  {
    DecimalMillion();
    AtoiDecimal(-1000000);
  }

  /**
   * Finding: `int32(i)` wraps a total below the 32-bit range into a positive
   * time, so "-1000000:00:00" is stored as 694967296 seconds.
   */
  lemma DecodeAsWrittenWraps()
    ensures Total("-1000000:00:00") == Some(-3600000000)
    ensures DecodeAsWritten("-1000000:00:00") == Success(694967296)
    ensures Decode("-1000000:00:00") == Failure(RangeExceeded("-1000000:00:00"))
  {
    AtoiMinusMillion();
    AtoiTwoDigits("00");
    assert "-1000000" + ":" + "00" + ":" + "00" == "-1000000:00:00";
    DecodeAsWrittenClockText("-1000000", "00", "00", -1000000, 0, 0, -3600000000);
    WrapMinusMillionHours();
  }

  /** The leading eight digits of the hours field of the 64-bit wrap finding. */
  lemma DigitsWrapHoursHigh()
    ensures AllDigits("51240955") && DigitsValue("51240955") == 51240955
  {
    assert DigitsValue("5") == 5;
    DigitsValueAppend("5", '1', "51", 5);
    DigitsValueAppend("51", '2', "512", 51);
    DigitsValueAppend("512", '4', "5124", 512);
    DigitsValueAppend("5124", '0', "51240", 5124);
    DigitsValueAppend("51240", '9', "512409", 51240);
    DigitsValueAppend("512409", '5', "5124095", 512409);
    DigitsValueAppend("5124095", '5', "51240955", 5124095);
  }

  /** `strconv.Atoi` of the hours field of the 64-bit wrap finding, read digit by digit. */
  lemma AtoiWrapHours()
    ensures Atoi("5124095576030431") == Some(5124095576030431)
  {
    DigitsWrapHoursHigh();
    DigitsValueAppend("51240955", '7', "512409557", 51240955);
    DigitsValueAppend("512409557", '6', "5124095576", 512409557);
    DigitsValueAppend("5124095576", '0', "51240955760", 5124095576);
    DigitsValueAppend("51240955760", '3', "512409557603", 51240955760);
    DigitsValueAppend("512409557603", '0', "5124095576030", 512409557603);
    DigitsValueAppend("5124095576030", '4', "51240955760304", 5124095576030);
    DigitsValueAppend("51240955760304", '3', "512409557603043", 51240955760304);
    DigitsValueAppend("512409557603043", '1', "5124095576030431", 512409557603043);
  }

  /** The exact total of "5124095576030431:00:16" is 2^64. */
  lemma TotalWrapText()
    ensures Total("5124095576030431:00:16") == Some(0x1_0000_0000_0000_0000)
  {
    AtoiWrapHours();
    AtoiTwoDigits("00");
    AtoiTwoDigits("16");
    assert "5124095576030431" + ":" + "00" + ":" + "16" == "5124095576030431:00:16";
    TotalClockText("5124095576030431", "00", "16", 5124095576030431, 0, 16);
  }

  /** `int64` arithmetic wraps 2^64 to 0. */
  lemma WrapTwoToThe64()
    ensures Wrap64(0x1_0000_0000_0000_0000) == 0
  {
  }

  /** A text whose exact total is 2^64 wraps to 0 as written, and is out of range for the corrected decoder. */
  lemma WrapsToZero(csv: string)
    requires Total(csv) == Some(0x1_0000_0000_0000_0000)
    ensures DecodeAsWritten(csv) == Success(0)
    ensures Decode(csv) == Failure(RangeExceeded(csv))
  {
    WrapTwoToThe64();
  }

  /**
   * Finding: the 64-bit sum wraps too, so a huge non-negative text passes the
   * upper-bound check: 5124095576030431·3600 + 16 is 2^64, and
   * "5124095576030431:00:16" is stored as 0 seconds.
   */
  lemma DecodeAsWrittenWrapsToZero()
    ensures Total("5124095576030431:00:16") == Some(0x1_0000_0000_0000_0000)
    ensures DecodeAsWritten("5124095576030431:00:16") == Success(0)
    ensures Decode("5124095576030431:00:16") == Failure(RangeExceeded("5124095576030431:00:16"))
  {
    TotalWrapText();
    WrapsToZero("5124095576030431:00:16");
  }

  /** Finding: the minutes message quotes the hours field instead of the minutes field. */
  lemma DecodeAsWrittenQuotesHours()
    ensures DecodeAsWritten("14:xx:01") == Failure(BadMinutes("14"))
    ensures Decode("14:xx:01") == Failure(BadMinutes("xx"))
  {
    AtoiTwoDigits("14");
    assert Atoi("xx") == None by { assert !IsDigit('x'); }
    assert Split("14:xx:01", ':') == ["14", "xx", "01"] by {
      SplitClockText("14", "xx", "01");
      assert "14" + ":" + "xx" + ":" + "01" == "14:xx:01";
    }
  }

  /** The values `database/sql` may hand to `Scan`; `int64` is the one `Value` produces. */
  datatype DbValue =
    | DbInt64(i: Int64)
    | DbFloat64(f: Float64)
    | DbBool(b: bool)
    | DbBytes(bytes: seq<bv8>)
    | DbString(s: string)
    | DbTime(unixNanos: int)
    | DbNull

  datatype ScanError = NotInt64(value: DbValue) | ScanRangeExceeded(value: DbValue)

  /** `Scan` as written: only the upper bound is checked and `int32(i)` wraps the rest. */
  function ScanAsWritten(d: DbValue): (r: Result<Int32, ScanError>)
    ensures r.Success? <==> d.DbInt64? && d.i <= MaxInt32
    ensures r.Success? ==> r.value == Wrap32(d.i)
    ensures !d.DbInt64? ==> r == Failure(NotInt64(d))
  {
    if !d.DbInt64? then Failure(NotInt64(d))
    else if d.i > MaxInt32 then Failure(ScanRangeExceeded(d))
    else Success(Wrap32(d.i))
  }

  /** `Scan` as evidently intended: an `int64` within the 32-bit range, taken as it is. */
  function ScanValue(d: DbValue): (r: Result<Int32, ScanError>)
    ensures r.Success? <==> d.DbInt64? && MinInt32 <= d.i <= MaxInt32
    ensures r.Success? ==> r.value == d.i
    ensures !d.DbInt64? ==> r == Failure(NotInt64(d))
  {
    if !d.DbInt64? then Failure(NotInt64(d))
    else if d.i < MinInt32 || d.i > MaxInt32 then Failure(ScanRangeExceeded(d))
    else Success(d.i)
  }

  /** `Value`: the `int64` stored in the database, which `Scan` reads back. */
  function ValueOf(v: Int32): (d: DbValue)
    ensures ScanValue(d) == Success(v)
    ensures ScanAsWritten(d) == Success(v)
  {
    DbInt64(v)
  }

  /** Finding: an `int64` below the 32-bit range scans as a wrapped, unrelated time. */
  lemma ScanAsWrittenWraps()
    ensures ScanAsWritten(DbInt64(-0x8000_0001)) == Success(MaxInt32)
    ensures ScanValue(DbInt64(-0x8000_0001)) == Failure(ScanRangeExceeded(DbInt64(-0x8000_0001)))
  {
  }

  /**
   * A `DateTime`: the Go struct embeds one `int32`, which `UnmarshalCSV` and
   * `Scan` assign through their pointer receiver only when they succeed.
   * Both methods here follow the corrected decoders `Decode` and `ScanValue`:
   * a total below the 32-bit range is rejected rather than wrapped, and a
   * minutes or seconds error quotes its own field.
   */
  class DateTime {
    var value: Int32

    constructor (v: Int32)
      ensures value == v
    {
      value := v;
    }

    /** `MarshalCSV`: never fails, and its text decodes to the same value. */
    method MarshalCSV() returns (csv: string)
      ensures csv == Encode(value)
      ensures Decode(csv) == Success(value)
    {
      csv := Encode(value);
      DecodeEncode(value);
    }

    /** `UnmarshalCSV`: on failure the held value is left as it was. */
    method UnmarshalCSV(csv: string) returns (err: Option<TimeError>)
      modifies this
      ensures Decode(csv).Success? ==> err == None && value == Decode(csv).value
      ensures Decode(csv).Failure? ==> err == Some(Decode(csv).error) && value == old(value)
    {
      var r := Decode(csv);
      if r.Failure? {
        return Some(r.error);
      }
      value := r.value;
      err := None;
    }

    /** `Scan`: on failure the held value is left as it was. */
    method Scan(d: DbValue) returns (err: Option<ScanError>)
      modifies this
      ensures ScanValue(d).Success? ==> err == None && value == ScanValue(d).value
      ensures ScanValue(d).Failure? ==> err == Some(ScanValue(d).error) && value == old(value)
    {
      var r := ScanValue(d);
      if r.Failure? {
        return Some(r.error);
      }
      value := r.value;
      err := None;
    }

    /** `Value`: the database form of the held value. */
    function Value(): (d: DbValue)
      reads this
      ensures ScanValue(d) == Success(value)
    {
      ValueOf(value)
    }
  }
}
