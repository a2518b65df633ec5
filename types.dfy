/** Shared datatypes of the extension: the travel modes offered to the user and
    the result record every commute lookup produces. */
module Types {

  datatype Option<T> = None | Some(value: T)

  /** A computation that either yields a value or fails with a human-readable
      message (a thrown `Error` whose `message` is `message`). */
  datatype Result<T> = Ok(value: T) | Err(message: string)

  /** The closed enumeration of travel modes. */
  datatype TravelMode = DRIVING | WALKING | TRANSIT | BICYCLING

  /** The string value each enum member carries: its own name, in upper case. */
  function Value(m: TravelMode): (r: string)
    ensures |r| > 0
    ensures forall i :: 0 <= i < |r| ==> 'A' <= r[i] <= 'Z'
  {
    match m
    case DRIVING => "DRIVING"
    case WALKING => "WALKING"
    case TRANSIT => "TRANSIT"
    case BICYCLING => "BICYCLING"
  }

  /** Distinct members carry distinct string values. */
  lemma ValueInjective(a: TravelMode, b: TravelMode)
    requires Value(a) == Value(b)
    ensures a == b
  {
  }

  /** ASCII lower-casing; the only strings lower-cased here are the enum values. */
  function LowerChar(c: char): char {
    if 'A' <= c <= 'Z' then (c as int - 'A' as int + 'a' as int) as char else c
  }

  function Lower(s: string): (r: string)
    ensures |r| == |s|
    ensures forall i :: 0 <= i < |s| ==> r[i] == LowerChar(s[i])
    ensures forall i :: 0 <= i < |r| ==> !('A' <= r[i] <= 'Z')
  {
    seq(|s|, i requires 0 <= i < |s| => LowerChar(s[i]))
  }

  /** Lower-casing a lower-cased string changes nothing. */
  lemma LowerIdempotent(s: string)
    ensures Lower(Lower(s)) == Lower(s)
  {
  }

  /** Lower-casing is injective on upper-case letters, so it keeps the
      travel modes apart. */
  lemma ModeLowerInjective(a: TravelMode, b: TravelMode)
    requires Lower(Value(a)) == Lower(Value(b))
    ensures a == b
  {
    var va, vb := Value(a), Value(b);
    assert |va| == |vb|;
    forall i | 0 <= i < |va| ensures va[i] == vb[i] {
      assert Lower(va)[i] == Lower(vb)[i];
    }
    assert va == vb;
    ValueInjective(a, b);
  }

  /** The record a commute lookup yields; `error` is optional. */
  datatype CommuteResult = CommuteResult(
    duration: string,
    distance: string,
    travelMode: TravelMode,
    success: bool,
    error: Option<string>)
}
