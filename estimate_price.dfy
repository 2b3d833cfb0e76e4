/**
 * The prediction program: it loads the two coefficients from the
 * coefficient file, asks for a mileage until one is accepted, and prices
 * the car with the fitted line. The lines typed in are given as a sequence;
 * running out of them is input() reaching the end of its stream, where it
 * raises EOFError, which no handler of the script catches.
 */
module PriceEstimate {
  import opened LinearRegression
  import opened CoefficientText

  /** The mileage an entered line stands for when estimate_price accepts it: float() reads it and it is positive. */
  function AcceptedKm(entry: string): (r: Option<real>)
    ensures r.Some? <==> ParseFloat(Strip(entry)).Some? && ParseFloat(Strip(entry)).value > 0.0
    ensures r.Some? ==> r.value == ParseFloat(Strip(entry)).value
  {
    match ParseFloat(Strip(entry))
    case None => None
    case Some(v) => if v > 0.0 then Some(v) else None
  }

  /** The index of the first accepted entry at or after from, or |entries| when there is none (FirstAcceptedIsFirst). */
  function FirstAccepted(entries: seq<string>, from: nat := 0): (k: nat)
    requires from <= |entries|
    ensures from <= k <= |entries|
    decreases |entries| - from
  {
    if from == |entries| then from
    else if AcceptedKm(entries[from]).Some? then from
    else FirstAccepted(entries, from + 1)
  }

  /** The entry FirstAccepted finds is accepted, and every entry before it is rejected. */
  lemma {:induction false} FirstAcceptedIsFirst(entries: seq<string>, from: nat)
    requires from <= |entries|
    ensures var k := FirstAccepted(entries, from);
            (k < |entries| ==> AcceptedKm(entries[k]).Some?)
            && forall j :: from <= j < k ==> AcceptedKm(entries[j]).None?
    decreases |entries| - from
  {
    hide ParseFloat;
    hide Strip;
    if from < |entries| && AcceptedKm(entries[from]).None? {
      FirstAcceptedIsFirst(entries, from + 1);
    }
  }

  datatype Estimate =
    | Priced(km: real, price: real)  // the accepted mileage and w·km + b
    | EOFError                       // input() found no further line and raised EOFError

  /**
   * estimate_price(w_final, b_final): entries float() rejects and entries
   * that are not positive are passed over; the first accepted mileage is
   * priced with the line. The handler catches only ValueError, so an
   * EOFError from input() leaves the loop as an exception.
   */
  method EstimatePrice(w: real, b: real, entries: seq<string>) returns (e: Estimate)
    ensures FirstAccepted(entries) == |entries| ==> e == EOFError
    ensures FirstAccepted(entries) < |entries| ==>
              var km := AcceptedKm(entries[FirstAccepted(entries)]);
              km.Some? && e == Priced(km.value, Predict(Line(w, b), km.value))
    ensures e.Priced? ==> e.km > 0.0
  {
    hide ParseFloat;
    hide Strip;
    hide FirstAccepted;
    FirstAcceptedIsFirst(entries, 0);
    e := EOFError;
    var i := 0;
    while i < |entries|
      invariant i <= FirstAccepted(entries)
      invariant e == EOFError
    {
      var parsed := ParseFloat(Strip(entries[i]));
      if parsed.Some? && parsed.value > 0.0 {
        var km := parsed.value;
        e := Priced(km, w * km + b);
        break;
      }
      i := i + 1;
    }
  }

  /** How a run of the prediction script ends. */
  datatype Run =
    | LoadFailed                  // ValueError from loading: reported, nothing priced
    | IndexErrorRaised            // a coefficient line without ':': no handler catches it
    | EOFErrorRaised              // input ran out before a mileage was accepted: no handler catches it
    | Estimated(km: real, price: real)

  /**
   * The script body: load the coefficients, then estimate; only the
   * ValueError of loading is caught at the top.
   */
  method RunEstimatePrice(text: string, entries: seq<string>) returns (run: Run)
    ensures LoadCoefficients(text) == ValueError ==> run == LoadFailed
    ensures LoadCoefficients(text) == IndexError ==> run == IndexErrorRaised
    ensures LoadCoefficients(text).Loaded? && FirstAccepted(entries) == |entries| ==> run == EOFErrorRaised
    ensures LoadCoefficients(text).Loaded? && FirstAccepted(entries) < |entries| ==>
              var loaded, km := LoadCoefficients(text), AcceptedKm(entries[FirstAccepted(entries)]);
              km.Some? && km.value > 0.0
              && run == Estimated(km.value, Predict(Line(loaded.w, loaded.b), km.value))
  {
    match LoadCoefficients(text)
    case ValueError =>
      run := LoadFailed;
    case IndexError =>
      run := IndexErrorRaised;
    case Loaded(w, b) =>
      var e := EstimatePrice(w, b, entries);
      match e
      case Priced(km, price) =>
        run := Estimated(km, price);
      case EOFError =>
        run := EOFErrorRaised;
  }
}
