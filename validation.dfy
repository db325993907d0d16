/** Shared validation of a driver's identity fields and of its status symbol. */
module Validation {
  import opened Wrappers

  /** The length every vehicle identification number must have. */
  const VIN_LENGTH: nat := 17

  /** The two recognised driver statuses (the Ruby symbols :AVAILABLE and
      :UNAVAILABLE). */
  datatype Status = AVAILABLE | UNAVAILABLE

  /** Why a constructor raised ArgumentError. */
  datatype InvalidArgument = InvalidId | InvalidVin | InvalidStatus

  /** The name of the Ruby symbol that stands for a status. */
  function StatusName(s: Status): string
  {
    match s
    case AVAILABLE => "AVAILABLE"
    case UNAVAILABLE => "UNAVAILABLE"
  }

  /** Reads a status symbol given by its name; any other symbol (such as
      :BOOP) is not a status. */
  function ParseStatus(name: string): (r: Option<Status>)
    ensures forall s :: r == Some(s) <==> StatusName(s) == name
  {
    if name == "AVAILABLE" then Some(AVAILABLE)
    else if name == "UNAVAILABLE" then Some(UNAVAILABLE)
    else None
  }

  /** An id is acceptable when it is positive. */
  predicate PositiveId(id: int)
  {
    id > 0
  }

  /** A VIN is acceptable when it has exactly VIN_LENGTH characters. */
  predicate ValidVin(vin: string)
  {
    |vin| == VIN_LENGTH
  }

  /** The checks Driver.new makes on its arguments, in order: the id, the VIN,
      then the status symbol, which defaults to :AVAILABLE when it is not
      given. On success the result is the status the driver starts with. */
  function CheckDriverArgs(id: int, vin: string, status: Option<string>): (r: Result<Status, InvalidArgument>)
    ensures r.Success? <==>
              PositiveId(id) && ValidVin(vin) && (status.None? || ParseStatus(status.value).Some?)
    ensures r.Failure? && !PositiveId(id) ==> r.error == InvalidId
    ensures r.Success? && status.None? ==> r.value == AVAILABLE
    ensures r.Success? && status.Some? ==> StatusName(r.value) == status.value
  {
    if !PositiveId(id) then Failure(InvalidId)
    else if !ValidVin(vin) then Failure(InvalidVin)
    else match status
         case None => Success(AVAILABLE)
         case Some(name) =>
           match ParseStatus(name)
           case None => Failure(InvalidStatus)
           case Some(s) => Success(s)
  }

  /** The status change_status moves a driver to: the other one of the two. */
  function Flip(s: Status): (r: Status)
    ensures r != s
  {
    match s
    case AVAILABLE => UNAVAILABLE
    case UNAVAILABLE => AVAILABLE
  }

  /** Changing the status twice restores it. */
  lemma FlipTwice(s: Status)
    ensures Flip(Flip(s)) == s
  {
  }

  /** The constructor calls in the instantiation tests: id 0, an empty VIN, a
      26-character VIN and the symbol :BOOP are rejected; a positive id with a
      17-character VIN is accepted, with status :AVAILABLE when none is given. */
  lemma DriverArgsExamples()
    ensures CheckDriverArgs(54, "12345678901234567", Some("AVAILABLE")) == Success(AVAILABLE)
    ensures CheckDriverArgs(0, "33133313331333133", None) == Failure(InvalidId)
    ensures CheckDriverArgs(100, "", None) == Failure(InvalidVin)
    ensures CheckDriverArgs(100, "33133313331333133extranums", None) == Failure(InvalidVin)
    ensures CheckDriverArgs(100, "12345678901234567", None) == Success(AVAILABLE)
    ensures CheckDriverArgs(100, "33133313331333133", Some("BOOP")) == Failure(InvalidStatus)
  {
  }
}
