/**
 * The linear-regression page (src/app/tf-linear-regression/client.tsx): the
 * car rows that `getData` keeps, the training form's schema and defaults, and
 * the `onSubmit` guard that lets only one training run at a time. The fetch
 * and the training itself are inputs and events.
 */
module LinearRegression {
  import opened JsValues
  import opened Seqs

  /** A `CarData` record as built at run time: whatever the JSON row held under each name. */
  datatype CarData = CarData(mpg: Value, horsepower: Value)

  /** The `map` callback: `mpg` from `Miles_per_Gallon`, `horsepower` from `Horsepower`; a null or undefined row throws. */
  function ToCar(d: Value): (r: Result<CarData>)
    ensures r.Thrown? <==> IsNullish(d)
    ensures d.Obj? ==> r == Ok(CarData(Get(d.fields, "Miles_per_Gallon"), Get(d.fields, "Horsepower")))
  {
    match Property(d, "Miles_per_Gallon")
    case Thrown(e) => Thrown(e)
    case Ok(mpg) => Ok(CarData(mpg, Property(d, "Horsepower").value))
  }

  /** `jsonData.map(...)`: one car per row in row order, or the throw of the first null row. */
  function ToCars(rows: seq<Value>): (r: Result<seq<CarData>>)
    ensures r.Ok? <==> forall i :: 0 <= i < |rows| ==> !IsNullish(rows[i])
    ensures r.Ok? ==> |r.value| == |rows| && forall i :: 0 <= i < |rows| ==> r.value[i] == ToCar(rows[i]).value
  {
    if rows == [] then Ok([])
    else
      match ToCar(rows[0])
      case Thrown(e) => Thrown(e)
      case Ok(first) =>
        match ToCars(rows[1..])
        case Thrown(e) => Thrown(e)
        case Ok(rest) =>
          assert forall i :: 1 <= i < |rows| ==> rows[i] == rows[1..][i - 1];
          Ok([first] + rest)
  }

  /** The `filter` test: `d.mpg != null && d.horsepower != null`. */
  predicate Complete(c: CarData)
  {
    !IsNullish(c.mpg) && !IsNullish(c.horsepower)
  }

  /**
   * What `getData` stores: the complete cars, in order; when the `map` throws,
   * the `catch` only logs, so the data stays the empty list it started as.
   */
  function CleanedCars(rows: seq<Value>): (cars: seq<CarData>)
    ensures |cars| <= |rows|
    ensures forall i :: 0 <= i < |cars| ==> Complete(cars[i])
    ensures ToCars(rows).Ok? ==> IsSubsequence(cars, ToCars(rows).value)
    ensures ToCars(rows).Ok? ==>
      forall i :: 0 <= i < |rows| && Complete(ToCars(rows).value[i]) ==> ToCars(rows).value[i] in cars
    ensures ToCars(rows).Ok? ==>
      forall c :: multiset(cars)[c] == if Complete(c) then multiset(ToCars(rows).value)[c] else 0
    ensures ToCars(rows).Thrown? ==> cars == []
  {
    match ToCars(rows)
    case Thrown(_) => []
    case Ok(all) => Filter(all, Complete)
  }

  /** When every row is an object with both values present, every row is kept, in order. */
  lemma CompleteRowsAllKept(rows: seq<Value>)
    requires forall i :: 0 <= i < |rows| ==> rows[i].Obj?
    requires forall i :: 0 <= i < |rows| ==>
      !IsNullish(Get(rows[i].fields, "Miles_per_Gallon")) && !IsNullish(Get(rows[i].fields, "Horsepower"))
    ensures |CleanedCars(rows)| == |rows|
    ensures forall i :: 0 <= i < |rows| ==>
      CleanedCars(rows)[i] == CarData(Get(rows[i].fields, "Miles_per_Gallon"), Get(rows[i].fields, "Horsepower"))
  {
    var all := ToCars(rows).value;
    assert forall i :: 0 <= i < |all| ==> Complete(all[i]);
    FilterKeepsAll(all, Complete);
  }

  /** One null row anywhere loses the whole data set. */
  lemma NullRowLosesAll(rows: seq<Value>, k: nat)
    requires k < |rows| && IsNullish(rows[k])
    ensures CleanedCars(rows) == []
  {
  }

  /** The form's values as numbers; the inputs hand `parseInt` of their text to the form. */
  datatype FormValues = FormValues(epochs: Number, batchSize: Number)

  /** `z.number().int().positive()`: a finite whole number above zero (NaN is not a number to zod). */
  predicate PositiveInt(n: Number)
    ensures PositiveInt(n) ==> n.Finite? && n.r >= 1.0
  {
    n.Finite? && n.r > 0.0 && n.r.Floor as real == n.r
  }

  /** The `zodResolver(formSchema)` check that `handleSubmit` runs before `onSubmit`. */
  predicate SchemaAccepts(values: FormValues)
  {
    PositiveInt(values.epochs) && PositiveInt(values.batchSize)
  }

  /** `defaultValues`. */
  function Defaults(): (values: FormValues)
    ensures values.epochs == Finite(100.0) && values.batchSize == Finite(58.0)
    ensures SchemaAccepts(values)
  {
    FormValues(Finite(100.0), Finite(58.0))
  }

  /** The longest prefix of decimal digits. */
  function LeadingDigits(s: string): (d: string)
    ensures AllDigits(d) && |d| <= |s| && d == s[..|d|]
    ensures |d| < |s| ==> !IsDigit(s[|d|])
  {
    if s == [] || !IsDigit(s[0]) then []
    else [s[0]] + LeadingDigits(s[1..])
  }

  /**
   * `parseInt(text)` for decimal text without leading blanks: an optional
   * sign, then the leading digits; NaN when there are none. A `0x` prefix is
   * read as the digit 0, where JavaScript reads hexadecimal; a number input
   * never hands over such text.
   */
  function ParseInt(text: string): (n: Number)
    ensures n.Finite? ==> n.r.Floor as real == n.r
    ensures text != [] && AllDigits(text) ==> n == Finite(DigitsValue(text) as real)
    ensures text == [] ==> n == NaN
  {
    var negative := text != [] && text[0] == '-';
    var unsigned := if text != [] && (text[0] == '-' || text[0] == '+') then text[1..] else text;
    var digits := LeadingDigits(unsigned);
    if digits == [] then NaN
    else
      var k: int := if negative then 0 - DigitsValue(digits) as int else DigitsValue(digits);
      assert text != [] && AllDigits(text) ==> k == DigitsValue(text) by {
        if text != [] && AllDigits(text) {
          LeadingDigitsOfDigits(text);
        }
      }
      Finite(k as real)
  }

  /** A string of digits is its own leading digits. */
  lemma {:induction false} LeadingDigitsOfDigits(s: string)
    requires AllDigits(s)
    ensures LeadingDigits(s) == s
  {
    if s != [] {
      LeadingDigitsOfDigits(s[1..]);
      assert [s[0]] + s[1..] == s;
    }
  }

  /** A field typed as digits is accepted exactly when it is not zero; a negative or empty one never is. */
  lemma TypedCountAccepted(text: string)
    ensures text != [] && AllDigits(text) ==> (PositiveInt(ParseInt(text)) <==> DigitsValue(text) > 0)
    ensures text == [] || text[0] == '-' ==> !PositiveInt(ParseInt(text))
  {
  }

  /**
   * The page's training flag. `runs` lists the form values each `trainModel`
   * call was given, in order; `inFlight` counts the calls whose promise has
   * not settled yet. What `fit` does with a call is the library's: a call
   * made while another `fit` on the same model runs is refused by it, and
   * its promise rejects.
   */
  class Trainer {
    var isTraining: bool
    var runs: seq<FormValues>
    ghost var inFlight: nat

    /**
     * Every unsettled call was made. The flag bounds nothing: Stop Training
     * clears it while a call is unsettled, and a call whose promise rejects
     * leaves it set with nothing unsettled.
     */
    ghost predicate Valid()
      reads this
    {
      inFlight <= |runs|
    }

    constructor ()
      ensures Valid() && !isTraining && runs == [] && inFlight == 0
    {
      isTraining := false;
      runs := [];
      inFlight := 0;
    }

    /** `onSubmit(values)`: ignored while training; otherwise marks training and calls `trainModel`. */
    method OnSubmit(values: FormValues)
      requires Valid()
      modifies this
      ensures Valid() && isTraining
      ensures old(isTraining) ==> runs == old(runs) && inFlight == old(inFlight)
      ensures !old(isTraining) ==> runs == old(runs) + [values] && inFlight == old(inFlight) + 1
    {
      if !isTraining {
        isTraining := true;
        runs := runs + [values];
        inFlight := inFlight + 1;
      }
    }

    /** `form.handleSubmit(onSubmit)`: `onSubmit` runs only with values that pass the schema. */
    method Submit(values: FormValues)
      requires Valid()
      modifies this
      ensures Valid()
      ensures !SchemaAccepts(values) ==> isTraining == old(isTraining) && runs == old(runs) && inFlight == old(inFlight)
      ensures SchemaAccepts(values) ==> isTraining
      ensures SchemaAccepts(values) && !old(isTraining) ==> runs == old(runs) + [values] && inFlight == old(inFlight) + 1
      ensures SchemaAccepts(values) && old(isTraining) ==> runs == old(runs) && inFlight == old(inFlight)
      ensures forall i :: 0 <= i < |old(runs)| ==> runs[i] == old(runs)[i]
      ensures forall i :: |old(runs)| <= i < |runs| ==> SchemaAccepts(runs[i])
    {
      if SchemaAccepts(values) {
        OnSubmit(values);
      }
    }

    /** The Stop Training button: it clears the flag; an unsettled call goes on. */
    method StopTraining()
      requires Valid()
      modifies this
      ensures Valid() && !isTraining && runs == old(runs) && inFlight == old(inFlight)
    {
      isTraining := false;
    }

    /** The `then` of a call's promise: that call has settled, and the flag is cleared whatever else is unsettled. */
    method TrainingFinished()
      requires Valid() && inFlight >= 1
      modifies this
      ensures Valid() && !isTraining && inFlight == old(inFlight) - 1 && runs == old(runs)
    {
      isTraining := false;
      inFlight := inFlight - 1;
    }

    /** A call's promise rejects: there is no `catch`, so the call has settled and the flag stays as it was. */
    method TrainingFailed()
      requires Valid() && inFlight >= 1
      modifies this
      ensures Valid() && isTraining == old(isTraining) && inFlight == old(inFlight) - 1 && runs == old(runs)
    {
      inFlight := inFlight - 1;
    }
  }

  /**
   * Submitting, pressing Stop Training and submitting again calls
   * `trainModel` a second time while the first call has not settled.
   */
  method StopThenResubmit(first: FormValues, second: FormValues) returns (t: Trainer)
    ensures t.runs == [first, second] && t.isTraining && t.inFlight == 2
  {
    t := new Trainer();
    t.OnSubmit(first);
    t.StopTraining();
    t.OnSubmit(second);
  }

  /**
   * A training whose promise rejects leaves the page marked as training with
   * nothing running, so every later submit is ignored until Stop Training.
   */
  method RejectedTrainingBlocksSubmits(first: FormValues, second: FormValues) returns (t: Trainer)
    ensures t.isTraining && t.inFlight == 0 && t.runs == [first]
  {
    t := new Trainer();
    t.OnSubmit(first);
    t.TrainingFailed();
    t.OnSubmit(second);
  }
}
