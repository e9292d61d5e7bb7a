/**
 * The enquiry client: it posts a vehicle's registration number with
 * `base_uri` and path `/v1/vehicles` and, on status 200, pushes the twenty
 * fields of the reply through the vehicle's setters in one fixed order; for
 * any other status the HTTP call returns, it throws an exception built from
 * the first reported error.
 *
 * The HTTP call is a parameter `transport` from the request to the decoded
 * response; a status for which the HTTP client itself throws is not part of
 * this model. What the mapping does to the vehicle is `Dispatch`, built on
 * `Run`, which applies the chain's steps in order and stops at the first
 * one that throws, keeping what the earlier steps wrote.
 */
module Dvla {
  import opened Wrappers
  import opened Throwables
  import opened Models

  const BaseUrlLive := "https://driver-vehicle-licensing.api.gov.uk/vehicle-enquiry"
  const BaseUrlTesting := "https://uat.driver-vehicle-licensing.api.gov.uk/vehicle-enquiry"
  const VehiclesPath := "/v1/vehicles"

  /** The base URL the client is built with: the test service in test mode, the live one otherwise. */
  function BaseUrl(testMode: bool): (url: string)
    ensures url == BaseUrlTesting <==> testMode
    ensures url == BaseUrlLive <==> !testMode
  {
    if testMode then BaseUrlTesting else BaseUrlLive
  }

  /**
   * A POST as the PHP code passes it: the client's `base_uri`, the path, the
   * options an API key and a correlation id (possibly null), and a JSON
   * object of strings as the body.
   */
  datatype Request = Request(
    baseUri: string,
    path: string,
    apiKey: string,
    correlationId: Option<string>,
    json: map<string, string>)

  /** The enquiry for one registration number. */
  function RequestFor(baseUri: string, apiKey: string, correlationId: Option<string>, registrationNumber: string)
    : (q: Request)
    ensures q.baseUri == baseUri && q.path == VehiclesPath
    ensures q.apiKey == apiKey && q.correlationId == correlationId
    ensures q.json.Keys == {"registrationNumber"}
    ensures q.json["registrationNumber"] == registrationNumber
  {
    Request(baseUri, VehiclesPath, apiKey, correlationId, map["registrationNumber" := registrationNumber])
  }

  /**
   * The decoded body of a successful reply. `None` is a key that is absent
   * or null, which the setter it is passed to refuses with a TypeError.
   */
  datatype Payload = Payload(
    taxStatus: Option<string>,
    taxDueDate: Option<string>,
    artEndDate: Option<string>,
    motStatus: Option<string>,
    motExpiryDate: Option<string>,
    make: Option<string>,
    monthOfFirstDvlaRegistration: Option<string>,
    monthOfFirstRegistration: Option<string>,
    yearOfManufacture: Option<int>,
    engineCapacity: Option<int>,
    co2Emissions: Option<int>,
    fuelType: Option<string>,
    markedForExport: Option<bool>,
    colour: Option<string>,
    typeApproval: Option<string>,
    wheelplan: Option<string>,
    revenueWeight: Option<int>,
    realDrivingEmissions: Option<string>,
    dateOfLastV5CIssued: Option<string>,
    euroStatus: Option<string>)

  /** One element of the `errors` list of an error reply. */
  datatype ApiError = ApiError(status: int, code: string, title: string, detail: string)

  /** A reply: its status code and its body, decoded both ways. */
  datatype Response = Response(status: int, payload: Payload, errors: seq<ApiError>)

  /** One link of the setter chain: a setter call, or the TypeError its missing argument causes. */
  type Step = Result<Setter, Failure>

  /**
   * Step `k` of the setter chain of a successful reply, in the order the PHP
   * code calls the setters: the setter of position `k` with the reply's value
   * for the properties that position owns, or a TypeError when that value is
   * missing.
   */
  function ChainStep(p: Payload, k: nat): (e: Step)
    requires k < 20
    ensures e.Err? ==> e.error.TypeError?
  {
    match k
    case 0 =>
      if p.taxStatus.Some?
      then Ok(SetTaxStatus(p.taxStatus.value))
      else Err(TypeError("taxStatus"))
    case 1 =>
      if p.taxDueDate.Some?
      then Ok(SetTaxDueDate(p.taxDueDate.value))
      else Err(TypeError("taxDueDate"))
    case 2 =>
      if p.artEndDate.Some?
      then Ok(SetArtEndDate(p.artEndDate.value))
      else Err(TypeError("artEndDate"))
    case 3 =>
      if p.motStatus.Some?
      then Ok(SetMotStatus(p.motStatus.value))
      else Err(TypeError("motStatus"))
    case 4 =>
      if p.motExpiryDate.Some?
      then Ok(SetMotExpiryDate(p.motExpiryDate.value))
      else Err(TypeError("motExpiryDate"))
    case 5 =>
      if p.make.Some?
      then Ok(SetMake(p.make.value))
      else Err(TypeError("make"))
    case 6 =>
      if p.monthOfFirstDvlaRegistration.Some?
      then Ok(SetMonthOfFirstDvlaRegistration(p.monthOfFirstDvlaRegistration.value))
      else Err(TypeError("monthOfFirstDvlaRegistration"))
    case 7 =>
      if p.monthOfFirstRegistration.Some?
      then Ok(SetMonthOfFirstRegistration(p.monthOfFirstRegistration.value))
      else Err(TypeError("monthOfFirstRegistration"))
    case 8 =>
      if p.yearOfManufacture.Some?
      then Ok(SetYearOfManufacture(p.yearOfManufacture.value))
      else Err(TypeError("yearOfManufacture"))
    case 9 =>
      if p.engineCapacity.Some?
      then Ok(SetEngineCapacity(p.engineCapacity.value))
      else Err(TypeError("engineCapacity"))
    case 10 =>
      if p.co2Emissions.Some?
      then Ok(SetCo2Emissions(p.co2Emissions.value))
      else Err(TypeError("co2Emissions"))
    case 11 =>
      if p.fuelType.Some?
      then Ok(SetFuelType(p.fuelType.value))
      else Err(TypeError("fuelType"))
    case 12 =>
      if p.markedForExport.Some?
      then Ok(SetMarkedForExport(p.markedForExport.value))
      else Err(TypeError("markedForExport"))
    case 13 =>
      if p.colour.Some?
      then Ok(SetColour(p.colour.value))
      else Err(TypeError("colour"))
    case 14 =>
      if p.typeApproval.Some?
      then Ok(SetTypeApproval(p.typeApproval.value))
      else Err(TypeError("typeApproval"))
    case 15 =>
      if p.wheelplan.Some?
      then Ok(SetWheelplan(p.wheelplan.value))
      else Err(TypeError("wheelplan"))
    case 16 =>
      if p.revenueWeight.Some?
      then Ok(SetRevenueWeight(p.revenueWeight.value))
      else Err(TypeError("revenueWeight"))
    case 17 =>
      if p.realDrivingEmissions.Some?
      then Ok(SetRealDrivingEmissions(p.realDrivingEmissions.value))
      else Err(TypeError("realDrivingEmissions"))
    case 18 =>
      if p.dateOfLastV5CIssued.Some?
      then Ok(SetDateOfLastV5CIssued(p.dateOfLastV5CIssued.value))
      else Err(TypeError("dateOfLastV5CIssued"))
    case _ =>
      if p.euroStatus.Some?
      then Ok(SetEuroStatus(p.euroStatus.value))
      else Err(TypeError("euroStatus"))
  }

  /** The whole setter chain of a successful reply. */
  function Chain(p: Payload): (s: seq<Step>)
    ensures |s| == 20
    ensures forall k :: 0 <= k < 20 ==> s[k] == ChainStep(p, k)
    // Every field but the registration number has a step, which is a setter call exactly when the reply supplies the field's key.
    ensures forall q :: q != RegistrationNumber ==> Owner(q) < 20 && (s[Owner(q)].Ok? <==> PayloadValue(p, q) != Null)
    // Step `j` writes exactly the fields owned by position `j`, with the reply's value for them.
    ensures forall j, q :: 0 <= j < 20 && s[j].Ok? ==>
      && (q in Targets(s[j].value) <==> Owner(q) == j)
      && (Owner(q) == j ==> Written(s[j].value) == PayloadValue(p, q))
  {
    var s := seq(20, k requires 0 <= k < 20 => ChainStep(p, k));
    forall q | q != RegistrationNumber
      ensures Owner(q) < 20 && (s[Owner(q)].Ok? <==> PayloadValue(p, q) != Null)
    {
      ChainStepReadsItsKey(p, q);
    }
    forall j, q | 0 <= j < 20 && s[j].Ok?
      ensures && (q in Targets(s[j].value) <==> Owner(q) == j)
              && (Owner(q) == j ==> Written(s[j].value) == PayloadValue(p, q))
    {
      ChainOwnership(p, j, q);
    }
    s
  }

  /** The position in the chain of the step that writes `p` (20 for the registration number, which none writes). */
  function Owner(p: Property): nat {
    match p
    case RegistrationNumber => 20
    case TaxStatus => 0
    case TaxDueDate => 1
    case ArtEndDate => 2
    case MotStatus => 3
    case MotExpiryDate => 4
    case Make => 5
    case MonthOfFirstDvlaRegistration => 6
    case MonthOfFirstRegistration => 7
    case YearOfManufacture => 8
    case EngineCapacity => 9
    case Co2Emissions => 10
    case FuelType => 11
    case MarkedForExport => 12
    case Colour => 13
    case Color => 13
    case TypeApproval => 14
    case Wheelplan => 15
    case RevenueWeight => 16
    case RealDrivingEmissions => 17
    case DateOfLastV5CIssued => 18
    case EuroStatus => 19
  }

  /** What the reply supplies for property `p`; the `colour` key feeds both spellings. */
  function PayloadValue(pl: Payload, p: Property): Value {
    match p
    case RegistrationNumber => Null
    case TaxStatus => OfString(pl.taxStatus)
    case TaxDueDate => OfString(pl.taxDueDate)
    case ArtEndDate => OfString(pl.artEndDate)
    case MotStatus => OfString(pl.motStatus)
    case MotExpiryDate => OfString(pl.motExpiryDate)
    case Make => OfString(pl.make)
    case MonthOfFirstDvlaRegistration => OfString(pl.monthOfFirstDvlaRegistration)
    case MonthOfFirstRegistration => OfString(pl.monthOfFirstRegistration)
    case YearOfManufacture => OfInt(pl.yearOfManufacture)
    case EngineCapacity => OfInt(pl.engineCapacity)
    case Co2Emissions => OfInt(pl.co2Emissions)
    case FuelType => OfString(pl.fuelType)
    case MarkedForExport => OfBool(pl.markedForExport)
    case Colour => OfString(pl.colour)
    case Color => OfString(pl.colour)
    case TypeApproval => OfString(pl.typeApproval)
    case Wheelplan => OfString(pl.wheelplan)
    case RevenueWeight => OfInt(pl.revenueWeight)
    case RealDrivingEmissions => OfString(pl.realDrivingEmissions)
    case DateOfLastV5CIssued => OfString(pl.dateOfLastV5CIssued)
    case EuroStatus => OfString(pl.euroStatus)
  }

  /** The chain position of a setter call: where the PHP code's chain calls that setter. */
  function Position(a: Setter): nat {
    match a
    case SetTaxStatus(_) => 0
    case SetTaxDueDate(_) => 1
    case SetArtEndDate(_) => 2
    case SetMotStatus(_) => 3
    case SetMotExpiryDate(_) => 4
    case SetMake(_) => 5
    case SetMonthOfFirstDvlaRegistration(_) => 6
    case SetMonthOfFirstRegistration(_) => 7
    case SetYearOfManufacture(_) => 8
    case SetEngineCapacity(_) => 9
    case SetCo2Emissions(_) => 10
    case SetFuelType(_) => 11
    case SetMarkedForExport(_) => 12
    case SetColour(_) => 13
    case SetColor(_) => 13
    case SetTypeApproval(_) => 14
    case SetWheelplan(_) => 15
    case SetRevenueWeight(_) => 16
    case SetRealDrivingEmissions(_) => 17
    case SetDateOfLastV5CIssued(_) => 18
    case SetEuroStatus(_) => 19
  }

  /** A setter writes exactly the properties owned by its chain position. */
  lemma TargetsAreOwned(a: Setter, p: Property)
    ensures p in Targets(a) <==> Owner(p) == Position(a)
  {
  }

  /**
   * Each step of the chain calls the setter of its own position, with the
   * value the reply supplies for the properties that position owns.
   */
  lemma ChainOwnership(pl: Payload, j: nat, p: Property)
    requires j < 20 && ChainStep(pl, j).Ok?
    ensures p in Targets(ChainStep(pl, j).value) <==> Owner(p) == j
    ensures Owner(p) == j ==> Written(ChainStep(pl, j).value) == PayloadValue(pl, p)
  {
    var a := ChainStep(pl, j).value;
    assert Position(a) == j;
    TargetsAreOwned(a, p);
  }

  /**
   * The step that owns a property reads that property's key of the reply: it
   * is a setter call exactly when the reply supplies a value.
   */
  lemma ChainStepReadsItsKey(pl: Payload, q: Property)
    requires q != RegistrationNumber
    ensures Owner(q) < 20
    ensures ChainStep(pl, Owner(q)).Ok? <==> PayloadValue(pl, q) != Null
  {
  }

  /** A missing key makes its step the TypeError naming that key (`colour` for both spellings). */
  lemma MissingKeyNamed(pl: Payload, q: Property)
    requires q != RegistrationNumber && q != Color
    ensures Owner(q) < 20
    ensures PayloadValue(pl, q) == Null ==> ChainStep(pl, Owner(q)) == Err(TypeError(Name(q)))
  {
  }

  /** The effect of one step on a record. */
  function StepOn(r: Record, e: Step): Result<Record, Failure> {
    match e
    case Ok(a) => Apply(r, a)
    case Err(f) => Err(f)
  }

  /** Where a run of the chain ends: the record, how many steps completed, and what was thrown. */
  datatype Outcome = Outcome(record: Record, done: nat, failure: Option<Failure>)

  /**
   * The steps of `s` from position `k` on, applied in order; the first step
   * that throws ends the run with nothing undone.
   */
  function Run(r: Record, s: seq<Step>, k: nat): (o: Outcome)
    requires k <= |s|
    ensures k <= o.done <= |s|
    ensures o.failure.None? <==> o.done == |s|
    ensures o.record.registrationNumber == r.registrationNumber
    ensures Consistent(r) ==> Consistent(o.record)
    decreases |s| - k
  {
    if k == |s| then Outcome(r, k, None)
    else
      match StepOn(r, s[k])
      case Err(f) => Outcome(r, k, Some(f))
      case Ok(next) => Run(next, s, k + 1)
  }

  /** A run that stops was stopped by its step at `done`, and by what that step throws. */
  lemma {:induction false} StoppedByStep(r: Record, s: seq<Step>, k: nat)
    requires k <= |s| && Run(r, s, k).failure.Some?
    ensures Run(r, s, k).done < |s|
    ensures StepOn(Run(r, s, k).record, s[Run(r, s, k).done]) == Err(Run(r, s, k).failure.value)
    decreases |s| - k
  {
    if StepOn(r, s[k]).Ok? {
      StoppedByStep(StepOn(r, s[k]).value, s, k + 1);
    }
  }

  /** Every step before the one a run stopped at was a setter call that accepted its argument. */
  lemma {:induction false} CompletedStepSucceeded(r: Record, s: seq<Step>, k: nat, j: nat)
    requires k <= |s| && k <= j < Run(r, s, k).done
    ensures s[j].Ok? && Accepts(s[j].value)
    decreases |s| - k
  {
    if k < j {
      CompletedStepSucceeded(StepOn(r, s[k]).value, s, k + 1, j);
    }
  }

  /** A run past a step that succeeds continues from that step's result. */
  lemma Advance(r: Record, s: seq<Step>, k: nat, a: Setter, next: Record)
    requires k < |s| && s[k] == Ok(a) && Apply(r, a) == Ok(next)
    ensures Run(r, s, k) == Run(next, s, k + 1)
  {
  }

  /** A run stops at a step that throws, with the record as it was. */
  lemma Halt(r: Record, s: seq<Step>, k: nat)
    requires k < |s| && StepOn(r, s[k]).Err?
    ensures Run(r, s, k) == Outcome(r, k, Some(StepOn(r, s[k]).error))
  {
  }

  /**
   * No rollback: the record a run ends with is exactly what the steps before
   * the failing one produce on their own.
   */
  lemma {:induction false} NoRollback(r: Record, s: seq<Step>, k: nat)
    requires k <= |s|
    ensures Run(r, s[..Run(r, s, k).done], k) == Outcome(Run(r, s, k).record, Run(r, s, k).done, None)
    decreases |s| - k
  {
    var o := Run(r, s, k);
    var prefix := s[..o.done];
    if k == o.done {
      assert k == |prefix|;
    } else {
      var next := StepOn(r, s[k]).value;
      assert prefix[k] == s[k];
      NoRollback(next, s, k + 1);
    }
  }

  /** A field that no completed step targets keeps its old value. */
  lemma {:induction false} Untouched(r: Record, s: seq<Step>, k: nat, p: Property)
    requires k <= |s|
    requires forall j :: k <= j < Run(r, s, k).done && s[j].Ok? ==> p !in Targets(s[j].value)
    ensures FieldValue(Run(r, s, k).record, p) == FieldValue(r, p)
    decreases |s| - k
  {
    if k < Run(r, s, k).done {
      var next := StepOn(r, s[k]).value;
      ApplyWritesOnlyTargets(r, s[k].value, p);
      Untouched(next, s, k + 1, p);
    }
  }

  /** A field written by a completed step and by no later completed step holds what that step wrote. */
  lemma {:induction false} LastWriteWins(r: Record, s: seq<Step>, k: nat, j: nat, p: Property)
    requires k <= |s| && k <= j < Run(r, s, k).done
    requires s[j].Ok? && p in Targets(s[j].value)
    requires forall i :: j < i < Run(r, s, k).done && s[i].Ok? ==> p !in Targets(s[i].value)
    ensures FieldValue(Run(r, s, k).record, p) == Written(s[j].value)
    decreases |s| - k
  {
    var next := StepOn(r, s[k]).value;
    if k < j {
      LastWriteWins(next, s, k + 1, j, p);
    } else {
      ApplyWritesOnlyTargets(r, s[k].value, p);
      Untouched(next, s, k + 1, p);
    }
  }

  /**
   * What the chain leaves in each field: the reply's value for every field
   * whose step completed, the old value for every field whose step was not
   * reached.
   */
  lemma ChainEffect(r: Record, pl: Payload, p: Property)
    requires p != RegistrationNumber
    ensures var o := Run(r, Chain(pl), 0);
      FieldValue(o.record, p) == if Owner(p) < o.done then PayloadValue(pl, p) else FieldValue(r, p)
  {
    var s := Chain(pl);
    var o := Run(r, s, 0);
    forall i | 0 <= i < o.done && s[i].Ok?
      ensures p in Targets(s[i].value) <==> Owner(p) == i
    {
      ChainOwnership(pl, i, p);
    }
    if Owner(p) < o.done {
      CompletedStepSucceeded(r, s, 0, Owner(p));
      ChainOwnership(pl, Owner(p), p);
      LastWriteWins(r, s, 0, Owner(p), p);
    } else {
      Untouched(r, s, 0, p);
    }
  }

  /** Every key present and both statuses valid: the whole chain completes. */
  predicate Complete(pl: Payload) {
    && pl.taxStatus.Some? && pl.taxDueDate.Some? && pl.artEndDate.Some? && pl.motStatus.Some?
    && pl.motExpiryDate.Some? && pl.make.Some? && pl.monthOfFirstDvlaRegistration.Some?
    && pl.monthOfFirstRegistration.Some? && pl.yearOfManufacture.Some? && pl.engineCapacity.Some?
    && pl.co2Emissions.Some? && pl.fuelType.Some? && pl.markedForExport.Some? && pl.colour.Some?
    && pl.typeApproval.Some? && pl.wheelplan.Some? && pl.revenueWeight.Some?
    && pl.realDrivingEmissions.Some? && pl.dateOfLastV5CIssued.Some? && pl.euroStatus.Some?
    && pl.taxStatus.value in TaxStatuses && pl.motStatus.value in MotStatuses
  }

  /** On a complete reply no step throws. */
  lemma CompleteRunsThrough(r: Record, pl: Payload)
    requires Complete(pl)
    ensures Run(r, Chain(pl), 0).failure.None?
  {
    var s := Chain(pl);
    if Run(r, s, 0).failure.Some? {
      StoppedByStep(r, s, 0);
      assert false;
    }
  }

  /** A complete reply is mapped in full: every field holds the reply's value, both colour spellings its `colour`. */
  lemma CompleteMapping(r: Record, pl: Payload, p: Property)
    requires Complete(pl)
    ensures Run(r, Chain(pl), 0).failure.None?
    ensures p != RegistrationNumber ==> FieldValue(Run(r, Chain(pl), 0).record, p) == PayloadValue(pl, p)
    ensures Run(r, Chain(pl), 0).record.colour == Run(r, Chain(pl), 0).record.color == pl.colour
  {
    CompleteRunsThrough(r, pl);
    if p != RegistrationNumber {
      ChainEffect(r, pl, p);
    }
    ChainEffect(r, pl, Colour);
    ChainEffect(r, pl, Color);
  }

  /** A refused or missing `taxStatus` stops the chain at its first step: the record is untouched. */
  lemma BadTaxStatusChangesNothing(r: Record, pl: Payload)
    requires pl.taxStatus.None? || pl.taxStatus.value !in TaxStatuses
    ensures Run(r, Chain(pl), 0).record == r
    ensures Run(r, Chain(pl), 0).failure ==
      Some(if pl.taxStatus.None? then TypeError("taxStatus") else InvalidTaxStatus(pl.taxStatus.value))
  {
  }

  /**
   * A refused `motStatus` after three good steps: tax status, tax due date
   * and ART end date are written, nothing later is, and the exception
   * propagates.
   */
  lemma BadMotStatusKeepsFirstThree(r: Record, pl: Payload)
    requires pl.taxStatus.Some? && pl.taxStatus.value in TaxStatuses
    requires pl.taxDueDate.Some? && pl.artEndDate.Some?
    requires pl.motStatus.Some? && pl.motStatus.value !in MotStatuses
    ensures Run(r, Chain(pl), 0) == Outcome(
      r.(taxStatus := pl.taxStatus, taxDueDate := pl.taxDueDate, artEndDate := pl.artEndDate),
      3, Some(InvalidMotStatus(pl.motStatus.value)))
  {
    var s := Chain(pl);
    var r1 := r.(taxStatus := pl.taxStatus);
    var r2 := r1.(taxDueDate := pl.taxDueDate);
    var r3 := r2.(artEndDate := pl.artEndDate);
    assert Run(r, s, 0) == Run(r1, s, 1);
    assert Run(r1, s, 1) == Run(r2, s, 2);
    assert Run(r2, s, 2) == Run(r3, s, 3);
  }

  /** The exception for an error reply: "(code) title: detail" of the first error, with its status as code. */
  function ErrorFor(errors: seq<ApiError>): (f: Failure)
    ensures |errors| > 0 ==> f.Exception? && f.code == errors[0].status
    ensures |errors| > 0 ==> f.message == "(" + errors[0].code + ") " + errors[0].title + ": " + errors[0].detail
    ensures |errors| == 0 ==> f == NoErrorElement
  {
    if |errors| == 0 then NoErrorElement
    else
      var e := errors[0];
      Exception("(" + e.code + ") " + e.title + ": " + e.detail, e.status)
  }

  /** Only the first error counts: replies that agree on it throw the same exception. */
  lemma FirstErrorOnly(e: ApiError, rest1: seq<ApiError>, rest2: seq<ApiError>)
    ensures ErrorFor([e] + rest1) == ErrorFor([e] + rest2)
  {
  }

  /** What `getVehicleDetails` does with a reply, starting from record `r`. */
  function Dispatch(r: Record, response: Response): (o: Outcome)
    ensures response.status != 200 ==> o.record == r && o.failure == Some(ErrorFor(response.errors))
    ensures response.status == 200 ==> o == Run(r, Chain(response.payload), 0)
    ensures o.record.registrationNumber == r.registrationNumber
    ensures Consistent(r) ==> Consistent(o.record)
  {
    if response.status == 200 then Run(r, Chain(response.payload), 0)
    else Outcome(r, 0, Some(ErrorFor(response.errors)))
  }

  /**
   * Steps 0 to 4 of `getVehicleDetails`'s one setter chain on `v` (a segment
   * of that chain, not a `Vehicle` setter): the tax and MOT details. On success the
   * rest of the chain runs as it would have from the start; on failure the
   * chain has ended with `v` as it is.
   */
  method SetTaxAndMot(v: Vehicle, p: Payload) returns (res: Result<Vehicle, Failure>)
    requires v.Valid()
    modifies v
    ensures v.Valid()
    ensures res.Ok? ==> res.value == v && Run(old(v.State()), Chain(p), 0) == Run(v.State(), Chain(p), 5)
    ensures res.Err? ==> Run(old(v.State()), Chain(p), 0) == Outcome(v.State(), Run(old(v.State()), Chain(p), 0).done, Some(res.error))
  {
    ghost var s := Chain(p);
    ghost var before := v.State();
    var w := v;

    if p.taxStatus.None? {
      Halt(w.State(), s, 0);
      return Err(TypeError("taxStatus"));
    }
    var t := w.SetTaxStatus(p.taxStatus.value);
    if t.Err? {
      Halt(w.State(), s, 0);
      return Err(t.error);
    }
    w := t.value;
    Advance(before, s, 0, SetTaxStatus(p.taxStatus.value), w.State());

    if p.taxDueDate.None? {
      Halt(w.State(), s, 1);
      return Err(TypeError("taxDueDate"));
    }
    before := w.State();
    w := w.SetTaxDueDate(p.taxDueDate.value);
    Advance(before, s, 1, SetTaxDueDate(p.taxDueDate.value), w.State());

    if p.artEndDate.None? {
      Halt(w.State(), s, 2);
      return Err(TypeError("artEndDate"));
    }
    before := w.State();
    w := w.SetArtEndDate(p.artEndDate.value);
    Advance(before, s, 2, SetArtEndDate(p.artEndDate.value), w.State());

    if p.motStatus.None? {
      Halt(w.State(), s, 3);
      return Err(TypeError("motStatus"));
    }
    before := w.State();
    var m := w.SetMotStatus(p.motStatus.value);
    if m.Err? {
      Halt(w.State(), s, 3);
      return Err(m.error);
    }
    w := m.value;
    Advance(before, s, 3, SetMotStatus(p.motStatus.value), w.State());

    if p.motExpiryDate.None? {
      Halt(w.State(), s, 4);
      return Err(TypeError("motExpiryDate"));
    }
    before := w.State();
    w := w.SetMotExpiryDate(p.motExpiryDate.value);
    Advance(before, s, 4, SetMotExpiryDate(p.motExpiryDate.value), w.State());
    return Ok(w);
  }

  /**
   * Steps 5 to 9 of `getVehicleDetails`'s one setter chain on `v` (a segment
   * of that chain, not a `Vehicle` setter): make, registration dates, year of manufacture and engine capacity. On success the
   * rest of the chain runs as it would have from the start; on failure the
   * chain has ended with `v` as it is.
   */
  method SetRegistrationDetails(v: Vehicle, p: Payload) returns (res: Result<Vehicle, Failure>)
    requires v.Valid()
    modifies v
    ensures v.Valid()
    ensures res.Ok? ==> res.value == v && Run(old(v.State()), Chain(p), 5) == Run(v.State(), Chain(p), 10)
    ensures res.Err? ==> Run(old(v.State()), Chain(p), 5) == Outcome(v.State(), Run(old(v.State()), Chain(p), 5).done, Some(res.error))
  {
    ghost var s := Chain(p);
    ghost var before := v.State();
    var w := v;

    if p.make.None? {
      Halt(w.State(), s, 5);
      return Err(TypeError("make"));
    }
    w := w.SetMake(p.make.value);
    Advance(before, s, 5, SetMake(p.make.value), w.State());

    if p.monthOfFirstDvlaRegistration.None? {
      Halt(w.State(), s, 6);
      return Err(TypeError("monthOfFirstDvlaRegistration"));
    }
    before := w.State();
    w := w.SetMonthOfFirstDvlaRegistration(p.monthOfFirstDvlaRegistration.value);
    Advance(before, s, 6, SetMonthOfFirstDvlaRegistration(p.monthOfFirstDvlaRegistration.value), w.State());

    if p.monthOfFirstRegistration.None? {
      Halt(w.State(), s, 7);
      return Err(TypeError("monthOfFirstRegistration"));
    }
    before := w.State();
    w := w.SetMonthOfFirstRegistration(p.monthOfFirstRegistration.value);
    Advance(before, s, 7, SetMonthOfFirstRegistration(p.monthOfFirstRegistration.value), w.State());

    if p.yearOfManufacture.None? {
      Halt(w.State(), s, 8);
      return Err(TypeError("yearOfManufacture"));
    }
    before := w.State();
    w := w.SetYearOfManufacture(p.yearOfManufacture.value);
    Advance(before, s, 8, SetYearOfManufacture(p.yearOfManufacture.value), w.State());

    if p.engineCapacity.None? {
      Halt(w.State(), s, 9);
      return Err(TypeError("engineCapacity"));
    }
    before := w.State();
    w := w.SetEngineCapacity(p.engineCapacity.value);
    Advance(before, s, 9, SetEngineCapacity(p.engineCapacity.value), w.State());
    return Ok(w);
  }

  /**
   * Steps 10 to 14 of `getVehicleDetails`'s one setter chain on `v` (a segment
   * of that chain, not a `Vehicle` setter): emissions, fuel, export flag, colour and type approval. On success the
   * rest of the chain runs as it would have from the start; on failure the
   * chain has ended with `v` as it is.
   */
  method SetEmissionsAndLooks(v: Vehicle, p: Payload) returns (res: Result<Vehicle, Failure>)
    requires v.Valid()
    modifies v
    ensures v.Valid()
    ensures res.Ok? ==> res.value == v && Run(old(v.State()), Chain(p), 10) == Run(v.State(), Chain(p), 15)
    ensures res.Err? ==> Run(old(v.State()), Chain(p), 10) == Outcome(v.State(), Run(old(v.State()), Chain(p), 10).done, Some(res.error))
  {
    ghost var s := Chain(p);
    ghost var before := v.State();
    var w := v;

    if p.co2Emissions.None? {
      Halt(w.State(), s, 10);
      return Err(TypeError("co2Emissions"));
    }
    w := w.SetCo2Emissions(p.co2Emissions.value);
    Advance(before, s, 10, SetCo2Emissions(p.co2Emissions.value), w.State());

    if p.fuelType.None? {
      Halt(w.State(), s, 11);
      return Err(TypeError("fuelType"));
    }
    before := w.State();
    w := w.SetFuelType(p.fuelType.value);
    Advance(before, s, 11, SetFuelType(p.fuelType.value), w.State());

    if p.markedForExport.None? {
      Halt(w.State(), s, 12);
      return Err(TypeError("markedForExport"));
    }
    before := w.State();
    w := w.SetMarkedForExport(p.markedForExport.value);
    Advance(before, s, 12, SetMarkedForExport(p.markedForExport.value), w.State());

    if p.colour.None? {
      Halt(w.State(), s, 13);
      return Err(TypeError("colour"));
    }
    before := w.State();
    w := w.SetColour(p.colour.value);
    Advance(before, s, 13, SetColour(p.colour.value), w.State());

    if p.typeApproval.None? {
      Halt(w.State(), s, 14);
      return Err(TypeError("typeApproval"));
    }
    before := w.State();
    w := w.SetTypeApproval(p.typeApproval.value);
    Advance(before, s, 14, SetTypeApproval(p.typeApproval.value), w.State());
    return Ok(w);
  }

  /**
   * Steps 15 to 19 of `getVehicleDetails`'s one setter chain on `v` (a segment
   * of that chain, not a `Vehicle` setter): wheel plan, weight, real driving emissions, V5C date and Euro status. On success the
   * rest of the chain runs as it would have from the start; on failure the
   * chain has ended with `v` as it is.
   */
  method SetWeightAndStatus(v: Vehicle, p: Payload) returns (res: Result<Vehicle, Failure>)
    requires v.Valid()
    modifies v
    ensures v.Valid()
    ensures res.Ok? ==> res.value == v && Run(old(v.State()), Chain(p), 15) == Run(v.State(), Chain(p), 20)
    ensures res.Err? ==> Run(old(v.State()), Chain(p), 15) == Outcome(v.State(), Run(old(v.State()), Chain(p), 15).done, Some(res.error))
  {
    ghost var s := Chain(p);
    ghost var before := v.State();
    var w := v;

    if p.wheelplan.None? {
      Halt(w.State(), s, 15);
      return Err(TypeError("wheelplan"));
    }
    w := w.SetWheelplan(p.wheelplan.value);
    Advance(before, s, 15, SetWheelplan(p.wheelplan.value), w.State());

    if p.revenueWeight.None? {
      Halt(w.State(), s, 16);
      return Err(TypeError("revenueWeight"));
    }
    before := w.State();
    w := w.SetRevenueWeight(p.revenueWeight.value);
    Advance(before, s, 16, SetRevenueWeight(p.revenueWeight.value), w.State());

    if p.realDrivingEmissions.None? {
      Halt(w.State(), s, 17);
      return Err(TypeError("realDrivingEmissions"));
    }
    before := w.State();
    w := w.SetRealDrivingEmissions(p.realDrivingEmissions.value);
    Advance(before, s, 17, SetRealDrivingEmissions(p.realDrivingEmissions.value), w.State());

    if p.dateOfLastV5CIssued.None? {
      Halt(w.State(), s, 18);
      return Err(TypeError("dateOfLastV5CIssued"));
    }
    before := w.State();
    w := w.SetDateOfLastV5CIssued(p.dateOfLastV5CIssued.value);
    Advance(before, s, 18, SetDateOfLastV5CIssued(p.dateOfLastV5CIssued.value), w.State());

    if p.euroStatus.None? {
      Halt(w.State(), s, 19);
      return Err(TypeError("euroStatus"));
    }
    before := w.State();
    w := w.SetEuroStatus(p.euroStatus.value);
    Advance(before, s, 19, SetEuroStatus(p.euroStatus.value), w.State());
    return Ok(w);
  }

  /** The client; its configuration is fixed when it is built. */
  class Dvla {
    const apiKey: string
    const correlationId: Option<string>
    const testMode: bool
    /** Fixed by the test-mode flag when the client is built. */
    const baseUri: string := BaseUrl(testMode)

    constructor(apiKey: string, correlationId: Option<string> := None, testMode: bool := true)
      ensures this.apiKey == apiKey && this.correlationId == correlationId
      ensures this.testMode == testMode && baseUri == BaseUrl(testMode)
    {
      this.apiKey := apiKey;
      this.correlationId := correlationId;
      this.testMode := testMode;
    }

    /** The request this client posts for a registration number. */
    function EnquiryFor(registrationNumber: string): (q: Request)
      ensures q.baseUri == BaseUrlTesting <==> testMode
      ensures q.baseUri == BaseUrlLive <==> !testMode
      ensures q.path == VehiclesPath && q.apiKey == apiKey && q.correlationId == correlationId
      ensures q.json == map["registrationNumber" := registrationNumber]
    {
      RequestFor(baseUri, apiKey, correlationId, registrationNumber)
    }

    /** Looks up a new vehicle built from the registration number alone. */
    method GetVehicleDetailsByRegistrationNumber(registrationNumber: string, transport: Request -> Response)
      returns (res: Result<Vehicle, Failure>)
      ensures var o := Dispatch(New(registrationNumber), transport(EnquiryFor(registrationNumber)));
        && (res.Ok? <==> o.failure.None?)
        && (res.Err? ==> o.failure == Some(res.error))
        && (res.Ok? ==> fresh(res.value) && res.value.Valid()
                        && res.value.registrationNumber == registrationNumber
                        && res.value.State() == o.record)
    {
      var vehicle := new Vehicle(registrationNumber);
      res := GetVehicleDetails(vehicle, transport);
    }

    /**
     * Posts the vehicle's registration number; on status 200 runs the setter
     * chain on the vehicle, otherwise throws the first reported error.
     */
    method GetVehicleDetails(vehicle: Vehicle, transport: Request -> Response)
      returns (res: Result<Vehicle, Failure>)
      requires vehicle.Valid()
      modifies vehicle
      ensures vehicle.Valid()
      ensures var o := Dispatch(old(vehicle.State()), transport(EnquiryFor(vehicle.registrationNumber)));
        && vehicle.State() == o.record
        && (res.Ok? <==> o.failure.None?)
        && (res.Ok? ==> res.value == vehicle)
        && (res.Err? ==> o.failure == Some(res.error))
    {
      var response := transport(EnquiryFor(vehicle.registrationNumber));
      if response.status != 200 {
        return Err(ErrorFor(response.errors));
      }
      var p := response.payload;
      var v := vehicle;
      var r := SetTaxAndMot(v, p);
      if r.Err? { return r; }
      r := SetRegistrationDetails(v, p);
      if r.Err? { return r; }
      r := SetEmissionsAndLooks(v, p);
      if r.Err? { return r; }
      r := SetWeightAndStatus(v, p);
      if r.Err? { return r; }
      return Ok(v);
    }
  }
}
