/** The failures of a launch-page fetch: a String-backed enum whose raw value is the user-facing message. */
module LaunchErrors {
  import opened Wrappers

  /** Exactly four failure kinds. */
  datatype LaunchError = InvalidUrl | UnableToComplete | InvalidResponse | InvalidData

  /** The raw value of each case: the text shown to the user when a page fetch fails. */
  function RawValue(e: LaunchError): string
  {
    match e
    case InvalidUrl => "Invalid URL, please try again later."
    case UnableToComplete => "Unable to complete your request. Please check your internet connection."
    case InvalidResponse => "Invalid response from the server. Please try again."
    case InvalidData => "The data received from the server was invalid. Please try again"
  }

  /** The four messages have four different lengths, which is what keeps them apart. */
  function MessageLength(e: LaunchError): nat
  {
    match e
    case InvalidUrl => 36
    case UnableToComplete => 71
    case InvalidResponse => 51
    case InvalidData => 63
  }

  lemma RawValueLength(e: LaunchError)
    ensures |RawValue(e)| == MessageLength(e)
  {
  }

  /** The enum's failable initializer from a raw value (`LaunchError(rawValue:)`). */
  function FromRawValue(s: string): (r: Option<LaunchError>)
    ensures forall e: LaunchError :: r == Some(e) <==> RawValue(e) == s
  {
    if s == RawValue(InvalidUrl) then Some(InvalidUrl)
    else if s == RawValue(UnableToComplete) then Some(UnableToComplete)
    else if s == RawValue(InvalidResponse) then Some(InvalidResponse)
    else if s == RawValue(InvalidData) then Some(InvalidData)
    else None
  }

  /** The four messages are pairwise distinct. */
  lemma RawValueInjective(e1: LaunchError, e2: LaunchError)
    requires RawValue(e1) == RawValue(e2)
    ensures e1 == e2
  {
    RawValueLength(e1);
    RawValueLength(e2);
  }

  /** A message identifies its case: reading a raw value back gives the case it came from. */
  lemma RawValueRoundTrip(e: LaunchError)
    ensures FromRawValue(RawValue(e)) == Some(e)
  {
    var r := FromRawValue(RawValue(e));
    assert r.Some?;
    RawValueInjective(r.value, e);
  }
}
