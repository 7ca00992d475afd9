/**
 * The row cleaning in the sleep-data page's `getData`
 * (components/Predict2dData.js): every fetched JSON row becomes one record
 * with the time in bed in minutes, the quality as a fraction and the step
 * count as a number. The fetch itself is an input: the parsed JSON rows.
 */
module SleepData {
  import opened JsValues

  /** A cleaned row. The copied fields keep whatever JSON value the row held. */
  datatype SleepRecord = SleepRecord(
    start: Value,
    end: Value,
    quality: Number,
    timeInBed: Number,
    wakeUp: Value,
    heartRate: Value,
    notes: Value,
    activity: Number)

  /** `v.split(sep)`: a string splits, and calling `split` on anything else is a TypeError. */
  function SplitValue(v: Value, sep: char): (r: Result<seq<string>>)
    ensures r.Ok? <==> v.Str?
    ensures r.Ok? ==> r.value == Split(v.s, sep)
  {
    if v.Str? then Ok(Split(v.s, sep)) else Thrown(TypeError("split is not a function"))
  }

  /** `parts[i]` on an array of strings: undefined past the end. */
  function Element(parts: seq<string>, i: nat): (v: Value)
    ensures i < |parts| ==> v == Str(parts[i])
    ensures i >= |parts| ==> v == Undefined
  {
    if i < |parts| then Str(parts[i]) else Undefined
  }

  /**
   * `hours * 60 + mins * 1` for the parts of `'Time in bed'` split on `:`;
   * both operands are coerced to numbers.
   */
  function Minutes(parts: seq<string>): (n: Number)
    requires |parts| >= 1
    ensures n.Finite? <==> AllDigits(parts[0]) && |parts| >= 2 && AllDigits(parts[1])
  {
    Add(Mul(ToNumber(Element(parts, 0)), Finite(60.0)), Mul(ToNumber(Element(parts, 1)), Finite(1.0)))
  }

  /** The cleaning callback of `data.map(d => ...)` for one row. */
  function CleanRow(d: Value): (r: Result<SleepRecord>)
    ensures r.Ok? <==>
      && !IsNullish(d)
      && Property(d, "Time in bed").value.Str?
      && Property(d, "Sleep quality").value.Str?
    ensures r.Ok? ==>
      && r.value.start == Property(d, "Start").value
      && r.value.end == Property(d, "End").value
      && r.value.wakeUp == Property(d, "Wake up").value
      && r.value.heartRate == Property(d, "Heart rate").value
      && r.value.notes == Property(d, "Sleep notes").value
      && r.value.activity == ToNumber(Property(d, "Activity (steps)").value)
  {
    match Property(d, "Time in bed")
    case Thrown(e) => Thrown(e)
    case Ok(timeInBedText) =>
      match SplitValue(timeInBedText, ':')
      case Thrown(e) => Thrown(e)
      case Ok(timeInBedArr) =>
        match SplitValue(Property(d, "Sleep quality").value, '%')
        case Thrown(e) => Thrown(e)
        case Ok(qualityParts) =>
          Ok(SleepRecord(
            Property(d, "Start").value,
            Property(d, "End").value,
            DivBy(ToNumber(Str(qualityParts[0])), 100.0),
            Minutes(timeInBedArr),
            Property(d, "Wake up").value,
            Property(d, "Heart rate").value,
            Property(d, "Sleep notes").value,
            Mul(ToNumber(Property(d, "Activity (steps)").value), Finite(1.0))))
  }

  /**
   * `data.map(...)`: one record per row, in row order; the first row that
   * makes the callback throw makes the whole map throw.
   */
  function Clean(rows: seq<Value>): (r: Result<seq<SleepRecord>>)
    ensures r.Ok? <==> forall i :: 0 <= i < |rows| ==> CleanRow(rows[i]).Ok?
    ensures r.Ok? ==> |r.value| == |rows| && forall i :: 0 <= i < |rows| ==> r.value[i] == CleanRow(rows[i]).value
  {
    if rows == [] then Ok([])
    else
      var head := CleanRow(rows[0]);
      if head.Thrown? then Thrown(head.message)
      else
        var tail := Clean(rows[1..]);
        if tail.Thrown? then
          assert !CleanRow(rows[1 + FirstIndexThrowing(rows[1..])]).Ok? by {
            assert rows[1 + FirstIndexThrowing(rows[1..])] == rows[1..][FirstIndexThrowing(rows[1..])];
          }
          Thrown(tail.message)
        else
          CleanCons(rows, head.value, tail.value);
          Ok([head.value] + tail.value)
  }

  /** The index of a row whose cleaning throws, when some row's does. */
  ghost function FirstIndexThrowing(rows: seq<Value>): (i: nat)
    requires exists j :: 0 <= j < |rows| && !CleanRow(rows[j]).Ok?
    ensures i < |rows| && !CleanRow(rows[i]).Ok?
    ensures forall j :: 0 <= j < i ==> CleanRow(rows[j]).Ok?
  {
    if !CleanRow(rows[0]).Ok? then 0
    else
      assert forall j :: 1 <= j < |rows| ==> rows[j] == rows[1..][j - 1];
      1 + FirstIndexThrowing(rows[1..])
  }

  /** The records of a row followed by the records of the rest are the records of all rows. */
  lemma CleanCons(rows: seq<Value>, first: SleepRecord, rest: seq<SleepRecord>)
    requires rows != [] && CleanRow(rows[0]) == Ok(first)
    requires |rest| == |rows| - 1
    requires forall i :: 0 <= i < |rows| - 1 ==> CleanRow(rows[1..][i]) == Ok(rest[i])
    ensures forall i :: 0 <= i < |rows| ==> CleanRow(rows[i]).Ok? && ([first] + rest)[i] == CleanRow(rows[i]).value
  {
    forall i | 1 <= i < |rows|
      ensures CleanRow(rows[i]).Ok? && ([first] + rest)[i] == CleanRow(rows[i]).value
    {
      assert rows[i] == rows[1..][i - 1];
    }
  }

  /** `"H:MM"` with digit strings is `H * 60 + MM` minutes, whatever else the row holds. */
  lemma TimeInBedParses(d: Value, hours: string, mins: string)
    requires d.Obj? && AllDigits(hours) && AllDigits(mins)
    requires Get(d.fields, "Time in bed") == Str(hours + ":" + mins)
    requires Get(d.fields, "Sleep quality").Str?
    ensures CleanRow(d).Ok?
    ensures CleanRow(d).value.timeInBed == Finite((DigitsValue(hours) * 60 + DigitsValue(mins)) as real)
  {
    var text := hours + ":" + mins;
    assert Split(text, ':') == [hours, mins] by {
      NoColonInDigits(hours);
      NoColonInDigits(mins);
      SplitAtFirst(hours, ':', mins);
      SplitWithout(mins, ':');
    }
    assert Property(d, "Time in bed") == Ok(Str(text));
    assert CleanRow(d).value.timeInBed == Minutes([hours, mins]);
    MinutesOfDigits(hours, mins);
  }

  lemma MinutesOfDigits(hours: string, mins: string)
    requires AllDigits(hours) && AllDigits(mins)
    ensures Minutes([hours, mins]) == Finite((DigitsValue(hours) * 60 + DigitsValue(mins)) as real)
  {
    var h := DigitsValue(hours);
    var m := DigitsValue(mins);
    assert ToNumber(Str(hours)) == Finite(h as real);
    assert ToNumber(Str(mins)) == Finite(m as real);
    assert (h * 60 + m) as real == h as real * 60.0 + m as real * 1.0;
  }

  lemma NoColonInDigits(s: string)
    requires AllDigits(s)
    ensures ':' !in s && '%' !in s
  {
    forall k | 0 <= k < |s| ensures s[k] != ':' && s[k] != '%' { assert IsDigit(s[k]); }
  }

  /** A time in bed without a colon has no minutes part, so it is NaN, whatever else the row holds. */
  lemma TimeWithoutColonIsNaN(d: Value, text: string)
    requires d.Obj? && ':' !in text
    requires Get(d.fields, "Time in bed") == Str(text)
    requires Get(d.fields, "Sleep quality").Str?
    ensures CleanRow(d).Ok?
    ensures CleanRow(d).value.timeInBed == NaN
  {
    SplitWithout(text, ':');
    assert Property(d, "Time in bed") == Ok(Str(text));
  }

  /** `"Q%…"` with a digit string `Q` is the fraction `Q / 100`, whatever follows the `%` and whatever else the row holds. */
  lemma QualityParses(d: Value, percent: string, rest: string)
    requires d.Obj? && AllDigits(percent)
    requires Get(d.fields, "Sleep quality") == Str(percent + "%" + rest)
    requires Get(d.fields, "Time in bed").Str?
    ensures CleanRow(d).Ok?
    ensures CleanRow(d).value.quality == Finite(DigitsValue(percent) as real / 100.0)
  {
    NoColonInDigits(percent);
    SplitAtFirst(percent, '%', rest);
    assert percent + "%" + rest == percent + ['%'] + rest;
    assert Property(d, "Sleep quality") == Ok(Str(percent + "%" + rest));
  }
}
