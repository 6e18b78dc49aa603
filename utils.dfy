/** Helpers shared by the simulation: key-wise aggregation of records, hour
    parsing, the half-hour clock and a one-or-two-level dictionary lookup. */
module Utils {
  import opened Outcomes

  // ---------------------------------------------------------------------------
  // agg_func_sum
  // ---------------------------------------------------------------------------

  type Record = map<string, real>

  /** The keys that occur in at least one of the records. */
  function KeysOf(records: seq<Record>): set<string>
    decreases |records|
  {
    if records == [] then {}
    else KeysOf(records[..|records| - 1]) + records[|records| - 1].Keys
  }

  /** The sum of `key`'s values over the records that contain it. */
  function KeySum(records: seq<Record>, key: string): real
    decreases |records|
  {
    if records == [] then 0.0
    else KeySum(records[..|records| - 1], key) + GetOrZero(records[|records| - 1], key)
  }

  /** The aggregate: one entry per key that occurs anywhere, holding that key's sum. */
  function Aggregate(records: seq<Record>): Record
  {
    map k | k in KeysOf(records) :: KeySum(records, k)
  }

  lemma {:induction false} KeysOfMembers(records: seq<Record>, key: string)
    ensures key in KeysOf(records) <==> exists i :: 0 <= i < |records| && key in records[i]
    decreases |records|
  {
    if records != [] {
      var front := records[..|records| - 1];
      KeysOfMembers(front, key);
      if key in KeysOf(front) {
        var i :| 0 <= i < |front| && key in front[i];
        assert key in records[i];
      }
      if exists i :: 0 <= i < |records| && key in records[i] {
        var i :| 0 <= i < |records| && key in records[i];
        if i < |front| {
          assert key in front[i];
        }
      }
    }
  }

  lemma {:induction false} KeySumOfAbsentKey(records: seq<Record>, key: string)
    requires key !in KeysOf(records)
    ensures KeySum(records, key) == 0.0
    decreases |records|
  {
    if records != [] {
      KeySumOfAbsentKey(records[..|records| - 1], key);
    }
  }

  /** Appending one record adds its keys and adds its values key by key. */
  lemma AggregateSnoc(records: seq<Record>, m: Record)
    ensures KeysOf(records + [m]) == KeysOf(records) + m.Keys
    ensures forall k :: KeySum(records + [m], k) == KeySum(records, k) + GetOrZero(m, k)
  {
    assert (records + [m])[..|records|] == records;
  }

  /** The keys of the aggregate are exactly the union of the records' keys. */
  lemma AggregateKeys(records: seq<Record>, key: string)
    ensures key in Aggregate(records) <==> exists i :: 0 <= i < |records| && key in records[i]
  {
    KeysOfMembers(records, key);
  }

  /** Aggregating no records gives the empty dict. */
  lemma AggregateEmpty()
    ensures Aggregate([]) == map[]
  {
  }

  /** Aggregating a single record gives that record back. */
  lemma AggregateSingleton(m: Record)
    ensures Aggregate([m]) == m
  {
    AggregateSnoc([], m);
    assert [] + [m] == [m];
  }

  lemma {:induction false} KeySumConcat(a: seq<Record>, b: seq<Record>, key: string)
    ensures KeySum(a + b, key) == KeySum(a, key) + KeySum(b, key)
    decreases |b|
  {
    if b == [] {
      assert a + b == a;
    } else {
      var front := b[..|b| - 1];
      assert (a + b)[..|a + b| - 1] == a + front;
      KeySumConcat(a, front, key);
    }
  }

  lemma {:induction false} KeysOfConcat(a: seq<Record>, b: seq<Record>)
    ensures KeysOf(a + b) == KeysOf(a) + KeysOf(b)
    decreases |b|
  {
    if b == [] {
      assert a + b == a;
    } else {
      var front := b[..|b| - 1];
      assert (a + b)[..|a + b| - 1] == a + front;
      KeysOfConcat(a, front);
    }
  }

  /** Aggregation does not depend on which group of records comes first. */
  lemma AggregateOrderIndependent(a: seq<Record>, b: seq<Record>)
    ensures Aggregate(a + b) == Aggregate(b + a)
  {
    KeysOfConcat(a, b);
    KeysOfConcat(b, a);
    forall k | k in KeysOf(a + b)
      ensures KeySum(a + b, k) == KeySum(b + a, k)
    {
      KeySumConcat(a, b, k);
      KeySumConcat(b, a, k);
    }
  }

  /** agg_func_sum: walks the records in order and, within each record, its keys,
      adding each value into the running dict (or inserting it when the key is new). */
  method AggFuncSum(elements: seq<Record>) returns (sumDict: Record)
    ensures sumDict == Aggregate(elements)
  {
    sumDict := map[];
    var i := 0;
    while i < |elements|
      invariant 0 <= i <= |elements|
      invariant sumDict == Aggregate(elements[..i])
    {
      var element := elements[i];
      ghost var before := sumDict;
      var pending := element.Keys;
      while pending != {}
        invariant pending <= element.Keys
        invariant sumDict.Keys == before.Keys + (element.Keys - pending)
        invariant forall k :: k in sumDict ==>
          sumDict[k] == (if k in before then before[k] else 0.0)
                        + (if k in element && k !in pending then element[k] else 0.0)
        decreases pending
      {
        var entry :| entry in pending;
        if entry in sumDict {
          sumDict := sumDict[entry := sumDict[entry] + element[entry]];
        } else {
          sumDict := sumDict[entry := element[entry]];
        }
        pending := pending - {entry};
      }
      assert elements[..i + 1] == elements[..i] + [element];
      AggregateSnoc(elements[..i], element);
      forall k | k in sumDict
        ensures sumDict[k] == KeySum(elements[..i + 1], k)
      {
        if k !in before {
          KeySumOfAbsentKey(elements[..i], k);
        }
      }
      i := i + 1;
    }
    assert elements[..i] == elements;
  }

  // ---------------------------------------------------------------------------
  // convert_hour_to_int
  // ---------------------------------------------------------------------------

  /** `hour_str.split(':')[0]`: the text before the first colon, or all of it. */
  function HourPart(s: string): (p: string)
    ensures |p| <= |s| && p == s[..|p|]
    ensures ':' !in p
    ensures |p| < |s| ==> s[|p|] == ':'
  {
    if s == [] || s[0] == ':' then [] else [s[0]] + HourPart(s[1..])
  }

  predicate IsDigit(c: char)
  {
    '0' <= c <= '9'
  }

  predicate AllDigits(s: string)
  {
    forall i :: 0 <= i < |s| ==> IsDigit(s[i])
  }

  /** The value of a string of decimal digits, leading zeros allowed. */
  function DigitsValue(s: string): nat
    requires AllDigits(s)
    decreases |s|
  {
    if s == [] then 0
    else DigitsValue(s[..|s| - 1]) * 10 + (s[|s| - 1] as int - '0' as int)
  }

  function DigitChar(d: nat): char
    requires d < 10
  {
    ('0' as int + d) as char
  }

  /** The decimal text of a natural number, without leading zeros. */
  function DecimalText(n: nat): string
    decreases n
  {
    if n < 10 then [DigitChar(n)] else DecimalText(n / 10) + [DigitChar(n % 10)]
  }

  /** `int(hour_str.split(':')[0])`, for hour parts made of ASCII digits; any
      other hour part is rejected with Python's ValueError message. */
  function ConvertHourToInt(hourStr: string): (r: Result<int>)
    ensures r.Ok? <==> HourPart(hourStr) != [] && AllDigits(HourPart(hourStr))
    ensures r.Ok? ==> r.value >= 0
    ensures r.Err? ==> r.error.ValueError?
  {
    var hourPart := HourPart(hourStr);
    if hourPart != [] && AllDigits(hourPart) then Ok(DigitsValue(hourPart))
    else Err(ValueError("invalid literal for int() with base 10: '" + hourPart + "'"))
  }

  lemma {:induction false} DecimalTextIsDigits(n: nat)
    ensures DecimalText(n) != [] && AllDigits(DecimalText(n))
    ensures DigitsValue(DecimalText(n)) == n
    decreases n
  {
    if n >= 10 {
      DecimalTextIsDigits(n / 10);
      var s := DecimalText(n);
      assert s[..|s| - 1] == DecimalText(n / 10);
    }
  }

  lemma {:induction false} HourPartOfPrefix(p: string, rest: string)
    requires ':' !in p
    requires rest == [] || rest[0] == ':'
    ensures HourPart(p + rest) == p
    decreases |p|
  {
    if p == [] {
      assert p + rest == rest;
    } else {
      assert (p + rest)[1..] == p[1..] + rest;
      HourPartOfPrefix(p[1..], rest);
    }
  }

  /** `n` zero digits: the padding of hours such as "07". */
  function Zeros(n: nat): string
  {
    seq(n, _ => '0')
  }

  lemma {:induction false} ZerosValue(n: nat)
    ensures AllDigits(Zeros(n)) && DigitsValue(Zeros(n)) == 0
    decreases n
  {
    if n > 0 {
      assert Zeros(n)[..n - 1] == Zeros(n - 1);
      ZerosValue(n - 1);
    }
  }

  lemma {:induction false} LeadingZerosIgnored(z: nat, s: string)
    requires AllDigits(s)
    ensures AllDigits(Zeros(z) + s) && DigitsValue(Zeros(z) + s) == DigitsValue(s)
    decreases |s|
  {
    ZerosValue(z);
    if s == [] {
      assert Zeros(z) + s == Zeros(z);
    } else {
      var t := Zeros(z) + s;
      assert t[..|t| - 1] == Zeros(z) + s[..|s| - 1];
      LeadingZerosIgnored(z, s[..|s| - 1]);
    }
  }

  lemma ZerosSnoc(z: nat)
    ensures Zeros(z) + ['0'] == Zeros(z + 1)
  {
  }

  /** Appending a digit to a positive number's decimal text. */
  lemma DecimalTextSnoc(v: nat, d: nat)
    requires 0 < v && d < 10
    ensures DecimalText(v * 10 + d) == DecimalText(v) + [DigitChar(d)]
  {
    assert (v * 10 + d) / 10 == v;
    assert (v * 10 + d) % 10 == d;
  }

  /** Appending a digit multiplies the value by ten and adds the digit. */
  lemma DigitsValueSnoc(t: string, c: char)
    requires AllDigits(t) && IsDigit(c)
    ensures AllDigits(t + [c])
    ensures DigitsValue(t + [c]) == DigitsValue(t) * 10 + (c as int - '0' as int)
  {
    assert (t + [c])[..|t|] == t;
  }

  /** Appending a digit to a padded decimal keeps it a padded decimal: the
      padding grows when the number so far is zero, and the text grows otherwise. */
  lemma PaddedDecimalSnoc(z: nat, v: nat, d: nat)
    requires d < 10
    ensures v == 0 ==> Zeros(z) + DecimalText(v) + [DigitChar(d)] == Zeros(z + 1) + DecimalText(d)
    ensures 0 < v ==> Zeros(z) + DecimalText(v) + [DigitChar(d)] == Zeros(z) + DecimalText(v * 10 + d)
  {
    if v == 0 {
      assert DecimalText(0) == ['0'];
      ZerosSnoc(z);
    } else {
      DecimalTextSnoc(v, d);
    }
  }

  /** Every digit string is some zero padding, `z` characters long, followed by
      the decimal text of its value. */
  lemma {:induction false} DigitsArePaddedDecimal(s: string) returns (z: nat)
    requires s != [] && AllDigits(s)
    ensures s == Zeros(z) + DecimalText(DigitsValue(s))
    decreases |s|
  {
    var t, c := s[..|s| - 1], s[|s| - 1];
    var d := c as int - '0' as int;
    assert s == t + [c];
    assert DigitChar(d) == c;
    if t == [] {
      z := 0;
    } else {
      var zt := DigitsArePaddedDecimal(t);
      var v := DigitsValue(t);
      DigitsValueSnoc(t, c);
      PaddedDecimalSnoc(zt, v, d);
      z := if v == 0 then zt + 1 else zt;
    }
  }

  /** Parsing inverts formatting: an hour written in decimal, with any number of
      leading zeros and followed by nothing or by a colon and anything, reads
      back as that hour. */
  lemma ConvertHourToIntRoundTrip(zeros: nat, hour: nat, rest: string)
    requires rest == [] || rest[0] == ':'
    ensures ConvertHourToInt(Zeros(zeros) + DecimalText(hour) + rest) == Ok(hour)
  {
    DecimalTextIsDigits(hour);
    LeadingZerosIgnored(zeros, DecimalText(hour));
    assert ':' !in Zeros(zeros) + DecimalText(hour);
    assert Zeros(zeros) + DecimalText(hour) + rest == (Zeros(zeros) + DecimalText(hour)) + rest;
    HourPartOfPrefix(Zeros(zeros) + DecimalText(hour), rest);
  }

  /** Formatting inverts parsing: a successfully parsed hour part is zero padding
      followed by the decimal text of the value returned. */
  lemma ConvertHourToIntFormatsBack(hourStr: string)
    requires ConvertHourToInt(hourStr).Ok?
    ensures exists z: nat :: HourPart(hourStr) == Zeros(z) + DecimalText(ConvertHourToInt(hourStr).value)
  {
    var z := DigitsArePaddedDecimal(HourPart(hourStr));
  }

  lemma ConvertHourToIntExample()
    ensures ConvertHourToInt("13:00") == Ok(13)
    ensures ConvertHourToInt("07:30") == Ok(7)
  {
    assert DecimalText(13) == "13";
    ConvertHourToIntRoundTrip(0, 13, ":00");
    assert Zeros(0) + "13" + ":00" == "13:00";
    assert DecimalText(7) == "7";
    ConvertHourToIntRoundTrip(1, 7, ":30");
    assert Zeros(1) + "7" + ":30" == "07:30";
  }

  // ---------------------------------------------------------------------------
  // move_time_tick
  // ---------------------------------------------------------------------------

  /** One clock tick: the time always advances by one, and the hour advances when
      the new time is even (two ticks per hour), an hour of 24 reading as 0. */
  function MoveTimeTick(curTime: int, curHour: int): (r: (int, int))
    ensures r.0 == curTime + 1
    ensures 0 <= curHour < 24 ==> 0 <= r.1 < 24
    ensures 0 <= curHour < 24 ==> (r.1 != curHour <==> r.0 % 2 == 0)
    ensures 0 <= curHour < 24 && r.0 % 2 == 0 ==> r.1 == (curHour + 1) % 24
  {
    var newTime := curTime + 1;
    var hour := if newTime % 2 == 0 then curHour + 1 else curHour;
    var hour' := if hour == 24 then 0 else hour;
    (newTime, hour')
  }

  /** The clock after `n` ticks. */
  function Ticks(curTime: int, curHour: int, n: nat): (int, int)
    decreases n
  {
    if n == 0 then (curTime, curHour)
    else
      var next := MoveTimeTick(curTime, curHour);
      Ticks(next.0, next.1, n - 1)
  }

  /** Two ticks move the hour on by exactly one (mod 24). */
  lemma TwoTicksOneHour(curTime: int, curHour: int)
    requires 0 <= curHour < 24
    ensures Ticks(curTime, curHour, 2) == (curTime + 2, (curHour + 1) % 24)
  {
  }

  /** 2k ticks move the hour on by k (mod 24). */
  lemma {:induction false} EvenTicksAdvanceHours(curTime: int, curHour: int, k: nat)
    requires 0 <= curHour < 24
    ensures Ticks(curTime, curHour, 2 * k) == (curTime + 2 * k, (curHour + k) % 24)
    decreases k
  {
    if k > 0 {
      TwoTicksOneHour(curTime, curHour);
      var next := (curTime + 2, (curHour + 1) % 24);
      assert Ticks(curTime, curHour, 2 * k) == Ticks(next.0, next.1, 2 * (k - 1));
      EvenTicksAdvanceHours(next.0, next.1, k - 1);
      assert ((curHour + 1) % 24 + (k - 1)) % 24 == (curHour + k) % 24;
    }
  }

  /** A day is 48 ticks, from any time: the hour comes back to where it started. */
  lemma DayIsFortyEightTicks(curTime: int, curHour: int)
    requires 0 <= curHour < 24
    ensures Ticks(curTime, curHour, 48) == (curTime + 48, curHour)
  {
    EvenTicksAdvanceHours(curTime, curHour, 24);
  }

  // ---------------------------------------------------------------------------
  // dict_level_alingment
  // ---------------------------------------------------------------------------

  /** The values a configuration dict holds: numbers, strings and nested dicts. */
  datatype Value = Number(n: real) | Text(s: string) | Dict(entries: map<string, Value>)

  predicate IsSubstring(sub: string, s: string)
  {
    exists i, j :: 0 <= i <= j <= |s| && s[i..j] == sub
  }

  /** `d[key1][key2]` when `key2` is in `d[key1]`, and `d[key1]` otherwise. A missing
      `key1` raises KeyError; testing membership in a number, or indexing a string
      with a string key, raises TypeError. */
  function DictLevelAlignment(d: map<string, Value>, key1: string, key2: string): (r: Result<Value>)
    ensures key1 !in d <==> r == Err(KeyError(key1))
    ensures key1 in d && d[key1].Dict? ==>
      r.Ok? && r.value == (if key2 in d[key1].entries then d[key1].entries[key2] else d[key1])
    ensures key1 in d && d[key1].Text? ==>
      (r.Ok? <==> !IsSubstring(key2, d[key1].s)) && (r.Ok? ==> r.value == d[key1])
      && (r.Err? ==> r.error.TypeError?)
    ensures key1 in d && d[key1].Number? ==> r.Err? && r.error.TypeError?
  {
    if key1 !in d then Err(KeyError(key1))
    else
      match d[key1]
      case Number(_) => Err(TypeError("argument of type 'float' is not iterable"))
      case Text(s) =>
        if !IsSubstring(key2, s) then Ok(d[key1])
        else Err(TypeError("string indices must be integers"))
      case Dict(entries) =>
        if key2 !in entries then Ok(d[key1]) else Ok(entries[key2])
  }
}
