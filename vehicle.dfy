/**
 * The vehicle record: one registration number fixed at construction and
 * twenty-one nullable fields filled in by fluent setters. Two fields only
 * accept a closed set of status strings, and `colour`/`color` are one field
 * under two spellings.
 *
 * The record's state as a value is `Record`; what a setter call does to it
 * is `Apply`. The class `Vehicle` holds the same state in mutable fields and
 * its methods are proved to act on `State()` exactly as `Apply` says.
 */
module Models {
  import opened Wrappers
  import opened Throwables

  // The two enumerations.
  const TaxStatusNotTaxedForOnRoadUse := "Not Taxed for on Road Use"
  const TaxStatusSorn := "SORN"
  const TaxStatusTaxed := "Taxed"
  const TaxStatusUntaxed := "Untaxed"
  const TaxStatuses: set<string> :=
    {TaxStatusNotTaxedForOnRoadUse, TaxStatusSorn, TaxStatusTaxed, TaxStatusUntaxed}

  const MotStatusNoDetailsHeldByDvla := "No details held by DVLA"
  const MotStatusNoResultsReturned := "No results returned"
  const MotStatusNotValid := "Not valid"
  const MotStatusValid := "Valid"
  const MotStatuses: set<string> :=
    {MotStatusNoDetailsHeldByDvla, MotStatusNoResultsReturned, MotStatusNotValid, MotStatusValid}

  function InvalidTaxStatus(taxStatus: string): Failure {
    Exception("Invalid tax status: " + taxStatus, 0)
  }

  function InvalidMotStatus(motStatus: string): Failure {
    Exception("Invalid MOT status: " + motStatus, 0)
  }

  const PropertyNotFound: Failure := Exception("Property not found", 0)

  /** Everything a vehicle holds, as a value; `None` is PHP's `null`. */
  datatype Record = Record(
    registrationNumber: string,
    taxStatus: Option<string>,
    taxDueDate: Option<string>,
    artEndDate: Option<string>,
    motStatus: Option<string>,
    motExpiryDate: Option<string>,
    make: Option<string>,
    monthOfFirstDvlaRegistration: Option<string>,
    monthOfFirstRegistration: Option<string>,
    yearOfManufacture: Option<int>,
    engineCapacity: Option<int>,
    co2Emissions: Option<int>,
    fuelType: Option<string>,
    markedForExport: Option<bool>,
    colour: Option<string>,
    color: Option<string>,
    typeApproval: Option<string>,
    wheelplan: Option<string>,
    revenueWeight: Option<int>,
    realDrivingEmissions: Option<string>,
    dateOfLastV5CIssued: Option<string>,
    euroStatus: Option<string>)

  /** The record's invariant: statuses inside their enumerations, the two spellings of colour equal. */
  predicate Consistent(r: Record) {
    && (r.taxStatus.Some? ==> r.taxStatus.value in TaxStatuses)
    && (r.motStatus.Some? ==> r.motStatus.value in MotStatuses)
    && r.colour == r.color
  }

  /** A freshly constructed vehicle: only the registration number is set. */
  function New(registrationNumber: string): (r: Record)
    ensures Consistent(r)
    ensures FieldValue(r, RegistrationNumber) == Str(registrationNumber)
    ensures forall p :: p != RegistrationNumber ==> FieldValue(r, p) == Null
  {
    Record(registrationNumber, None, None, None, None, None, None, None, None, None, None,
           None, None, None, None, None, None, None, None, None, None, None)
  }

  /** The names a vehicle's properties are known by, one per field. */
  datatype Property =
    | RegistrationNumber | TaxStatus | TaxDueDate | ArtEndDate | MotStatus | MotExpiryDate
    | Make | MonthOfFirstDvlaRegistration | MonthOfFirstRegistration | YearOfManufacture
    | EngineCapacity | Co2Emissions | FuelType | MarkedForExport | Colour | Color
    | TypeApproval | Wheelplan | RevenueWeight | RealDrivingEmissions | DateOfLastV5CIssued
    | EuroStatus

  /** A field's content seen from outside: one of PHP's scalar types, or null. */
  datatype Value = Null | Str(s: string) | Int(i: int) | Bool(b: bool)

  function OfString(o: Option<string>): Value {
    if o.Some? then Str(o.value) else Null
  }

  function OfInt(o: Option<int>): Value {
    if o.Some? then Int(o.value) else Null
  }

  function OfBool(o: Option<bool>): Value {
    if o.Some? then Bool(o.value) else Null
  }

  /** The content of the field behind property `p`. */
  function FieldValue(r: Record, p: Property): Value {
    match p
    case RegistrationNumber => Str(r.registrationNumber)
    case TaxStatus => OfString(r.taxStatus)
    case TaxDueDate => OfString(r.taxDueDate)
    case ArtEndDate => OfString(r.artEndDate)
    case MotStatus => OfString(r.motStatus)
    case MotExpiryDate => OfString(r.motExpiryDate)
    case Make => OfString(r.make)
    case MonthOfFirstDvlaRegistration => OfString(r.monthOfFirstDvlaRegistration)
    case MonthOfFirstRegistration => OfString(r.monthOfFirstRegistration)
    case YearOfManufacture => OfInt(r.yearOfManufacture)
    case EngineCapacity => OfInt(r.engineCapacity)
    case Co2Emissions => OfInt(r.co2Emissions)
    case FuelType => OfString(r.fuelType)
    case MarkedForExport => OfBool(r.markedForExport)
    case Colour => OfString(r.colour)
    case Color => OfString(r.color)
    case TypeApproval => OfString(r.typeApproval)
    case Wheelplan => OfString(r.wheelplan)
    case RevenueWeight => OfInt(r.revenueWeight)
    case RealDrivingEmissions => OfString(r.realDrivingEmissions)
    case DateOfLastV5CIssued => OfString(r.dateOfLastV5CIssued)
    case EuroStatus => OfString(r.euroStatus)
  }

  /**
   * What the getter for `p` returns. Every getter returns its own field,
   * except `getColor`, which returns `getColour()`.
   */
  function Getter(r: Record, p: Property): (v: Value)
    ensures p == Color ==> v == FieldValue(r, Colour)
    ensures p != Color ==> v == FieldValue(r, p)
    ensures Consistent(r) ==> v == FieldValue(r, p)
  {
    if p == Color then FieldValue(r, Colour) else FieldValue(r, p)
  }

  /** In a consistent record every getter returns its own field, `getColor` included. */
  lemma GetterReadsOwnField(r: Record, p: Property)
    requires Consistent(r)
    ensures Getter(r, p) == FieldValue(r, p)
    ensures Getter(r, Color) == Getter(r, Colour)
  {
  }

  /** The name `__get` accepts for each property. */
  function Name(p: Property): string {
    match p
    case RegistrationNumber => "registrationNumber"
    case TaxStatus => "taxStatus"
    case TaxDueDate => "taxDueDate"
    case ArtEndDate => "artEndDate"
    case MotStatus => "motStatus"
    case MotExpiryDate => "motExpiryDate"
    case Make => "make"
    case MonthOfFirstDvlaRegistration => "monthOfFirstDvlaRegistration"
    case MonthOfFirstRegistration => "monthOfFirstRegistration"
    case YearOfManufacture => "yearOfManufacture"
    case EngineCapacity => "engineCapacity"
    case Co2Emissions => "co2Emissions"
    case FuelType => "fuelType"
    case MarkedForExport => "markedForExport"
    case Colour => "colour"
    case Color => "color"
    case TypeApproval => "typeApproval"
    case Wheelplan => "wheelplan"
    case RevenueWeight => "revenueWeight"
    case RealDrivingEmissions => "realDrivingEmissions"
    case DateOfLastV5CIssued => "dateOfLastV5CIssued"
    case EuroStatus => "euroStatus"
  }

  /** The property a name denotes, if any: the `match` of `__get`. */
  function PropertyNamed(name: string): (r: Option<Property>)
    ensures r.Some? ==> Name(r.value) == name
    ensures r.None? ==> forall p :: Name(p) != name
  {
    match name
    case "registrationNumber" => Some(RegistrationNumber)
    case "taxStatus" => Some(TaxStatus)
    case "taxDueDate" => Some(TaxDueDate)
    case "artEndDate" => Some(ArtEndDate)
    case "motStatus" => Some(MotStatus)
    case "motExpiryDate" => Some(MotExpiryDate)
    case "make" => Some(Make)
    case "monthOfFirstDvlaRegistration" => Some(MonthOfFirstDvlaRegistration)
    case "monthOfFirstRegistration" => Some(MonthOfFirstRegistration)
    case "yearOfManufacture" => Some(YearOfManufacture)
    case "engineCapacity" => Some(EngineCapacity)
    case "co2Emissions" => Some(Co2Emissions)
    case "fuelType" => Some(FuelType)
    case "markedForExport" => Some(MarkedForExport)
    case "colour" => Some(Colour)
    case "color" => Some(Color)
    case "typeApproval" => Some(TypeApproval)
    case "wheelplan" => Some(Wheelplan)
    case "revenueWeight" => Some(RevenueWeight)
    case "realDrivingEmissions" => Some(RealDrivingEmissions)
    case "dateOfLastV5CIssued" => Some(DateOfLastV5CIssued)
    case "euroStatus" => Some(EuroStatus)
    case _ => None
  }

  /** Names and properties correspond one to one. */
  lemma NameRoundTrip(p: Property)
    ensures PropertyNamed(Name(p)) == Some(p)
  {
    if p.RegistrationNumber? || p.TaxStatus? || p.TaxDueDate? || p.ArtEndDate? || p.MotStatus? ||
        p.MotExpiryDate? || p.Make? {
      NameRoundTripA(p);
    } else if p.MonthOfFirstDvlaRegistration? || p.MonthOfFirstRegistration? || p.YearOfManufacture? ||
        p.EngineCapacity? || p.Co2Emissions? || p.FuelType? {
      NameRoundTripB(p);
    } else if p.MarkedForExport? || p.Colour? || p.Color? || p.TypeApproval? || p.Wheelplan? {
      NameRoundTripC(p);
    } else {
      NameRoundTripD(p);
    }
  }

  /** `NameRoundTrip` for the properties its `requires` lists; the split keeps each proof small. */
  lemma NameRoundTripA(p: Property)
    requires p.RegistrationNumber? || p.TaxStatus? || p.TaxDueDate? || p.ArtEndDate? || p.MotStatus? ||
        p.MotExpiryDate? || p.Make?
    ensures PropertyNamed(Name(p)) == Some(p)
  {
  }

  /** `NameRoundTrip` for the properties its `requires` lists; the split keeps each proof small. */
  lemma NameRoundTripB(p: Property)
    requires p.MonthOfFirstDvlaRegistration? || p.MonthOfFirstRegistration? || p.YearOfManufacture? ||
        p.EngineCapacity? || p.Co2Emissions? || p.FuelType?
    ensures PropertyNamed(Name(p)) == Some(p)
  {
  }

  /** `NameRoundTrip` for the properties its `requires` lists; the split keeps each proof small. */
  lemma NameRoundTripC(p: Property)
    requires p.MarkedForExport? || p.Colour? || p.Color? || p.TypeApproval? || p.Wheelplan?
    ensures PropertyNamed(Name(p)) == Some(p)
  {
  }

  /** `NameRoundTrip` for the properties its `requires` lists; the split keeps each proof small. */
  lemma NameRoundTripD(p: Property)
    requires p.RevenueWeight? || p.RealDrivingEmissions? || p.DateOfLastV5CIssued? || p.EuroStatus?
    ensures PropertyNamed(Name(p)) == Some(p)
  {
  }

  /** A property's name names no other property. */
  lemma NameDetermines(q: Property)
    ensures forall p :: Name(p) == Name(q) ==> p == q
  {
    forall p | Name(p) == Name(q)
      ensures p == q
    {
      NameRoundTrip(p);
      NameRoundTrip(q);
    }
  }

  /**
   * `__get` as declared: its return type `bool|int|string` excludes null, so
   * a listed name whose field is still null throws a TypeError instead of
   * returning the getter's null.
   */
  function GetAsDeclared(r: Record, name: string): (res: Result<Value, Failure>)
    ensures forall p :: Name(p) == name && Getter(r, p) != Null ==> res == Ok(Getter(r, p))
    ensures forall p :: Name(p) == name && Getter(r, p) == Null ==> res == Err(ReturnTypeError("__get"))
    ensures res == Err(PropertyNotFound) <==> forall p :: Name(p) != name
  {
    match PropertyNamed(name)
    case Some(p) =>
      NameDetermines(p);
      if Getter(r, p) == Null then Err(ReturnTypeError("__get")) else Ok(Getter(r, p))
    case None => Err(PropertyNotFound)
  }

  /** On a new vehicle `__get` as declared throws for every name but `registrationNumber`. */
  lemma GetAsDeclaredFailsOnNewVehicle(registrationNumber: string, name: string)
    requires name != "registrationNumber" && PropertyNamed(name).Some?
    ensures GetAsDeclared(New(registrationNumber), name) == Err(ReturnTypeError("__get"))
  {
    var p := PropertyNamed(name).value;
    assert Getter(New(registrationNumber), p) == Null;
  }

  /** One call of a fluent setter, with its argument. */
  datatype Setter =
    | SetTaxStatus(taxStatus: string)
    | SetTaxDueDate(taxDueDate: string)
    | SetArtEndDate(artEndDate: string)
    | SetMotStatus(motStatus: string)
    | SetMotExpiryDate(motExpiryDate: string)
    | SetMake(make: string)
    | SetMonthOfFirstDvlaRegistration(monthOfFirstDvlaRegistration: string)
    | SetMonthOfFirstRegistration(monthOfFirstRegistration: string)
    | SetYearOfManufacture(yearOfManufacture: int)
    | SetEngineCapacity(engineCapacity: int)
    | SetCo2Emissions(co2Emissions: int)
    | SetFuelType(fuelType: string)
    | SetMarkedForExport(markedForExport: bool)
    | SetColour(colour: string)
    | SetColor(color: string)
    | SetTypeApproval(typeApproval: string)
    | SetWheelplan(wheelplan: string)
    | SetRevenueWeight(revenueWeight: int)
    | SetRealDrivingEmissions(realDrivingEmissions: string)
    | SetDateOfLastV5CIssued(dateOfLastV5CIssued: string)
    | SetEuroStatus(euroStatus: string)

  /** Whether the setter accepts its argument: only the two status setters ever refuse. */
  predicate Accepts(a: Setter) {
    match a
    case SetTaxStatus(s) => s in TaxStatuses
    case SetMotStatus(s) => s in MotStatuses
    case _ => true
  }

  /** The fields a setter writes. */
  function Targets(a: Setter): set<Property> {
    match a
    case SetTaxStatus(_) => {TaxStatus}
    case SetTaxDueDate(_) => {TaxDueDate}
    case SetArtEndDate(_) => {ArtEndDate}
    case SetMotStatus(_) => {MotStatus}
    case SetMotExpiryDate(_) => {MotExpiryDate}
    case SetMake(_) => {Make}
    case SetMonthOfFirstDvlaRegistration(_) => {MonthOfFirstDvlaRegistration}
    case SetMonthOfFirstRegistration(_) => {MonthOfFirstRegistration}
    case SetYearOfManufacture(_) => {YearOfManufacture}
    case SetEngineCapacity(_) => {EngineCapacity}
    case SetCo2Emissions(_) => {Co2Emissions}
    case SetFuelType(_) => {FuelType}
    case SetMarkedForExport(_) => {MarkedForExport}
    case SetColour(_) => {Colour, Color}
    case SetColor(_) => {Colour, Color}
    case SetTypeApproval(_) => {TypeApproval}
    case SetWheelplan(_) => {Wheelplan}
    case SetRevenueWeight(_) => {RevenueWeight}
    case SetRealDrivingEmissions(_) => {RealDrivingEmissions}
    case SetDateOfLastV5CIssued(_) => {DateOfLastV5CIssued}
    case SetEuroStatus(_) => {EuroStatus}
  }

  /** The value a setter writes into each of its target fields. */
  function Written(a: Setter): Value {
    match a
    case SetTaxStatus(s) => Str(s)
    case SetTaxDueDate(s) => Str(s)
    case SetArtEndDate(s) => Str(s)
    case SetMotStatus(s) => Str(s)
    case SetMotExpiryDate(s) => Str(s)
    case SetMake(s) => Str(s)
    case SetMonthOfFirstDvlaRegistration(s) => Str(s)
    case SetMonthOfFirstRegistration(s) => Str(s)
    case SetYearOfManufacture(n) => Int(n)
    case SetEngineCapacity(n) => Int(n)
    case SetCo2Emissions(n) => Int(n)
    case SetFuelType(s) => Str(s)
    case SetMarkedForExport(b) => Bool(b)
    case SetColour(s) => Str(s)
    case SetColor(s) => Str(s)
    case SetTypeApproval(s) => Str(s)
    case SetWheelplan(s) => Str(s)
    case SetRevenueWeight(n) => Int(n)
    case SetRealDrivingEmissions(s) => Str(s)
    case SetDateOfLastV5CIssued(s) => Str(s)
    case SetEuroStatus(s) => Str(s)
  }

  /**
   * The effect of one setter call on a record: the new record, or the
   * exception the setter throws (in which case nothing was written).
   */
  function Apply(r: Record, a: Setter): (res: Result<Record, Failure>)
    ensures res.Ok? <==> Accepts(a)
    ensures res.Err? && a.SetTaxStatus? ==> res.error == InvalidTaxStatus(a.taxStatus)
    ensures res.Err? && a.SetMotStatus? ==> res.error == InvalidMotStatus(a.motStatus)
    ensures res.Ok? ==> res.value.registrationNumber == r.registrationNumber
    ensures res.Ok? && Consistent(r) ==> Consistent(res.value)
  {
    match a
    case SetTaxStatus(s) =>
      if s in TaxStatuses then Ok(r.(taxStatus := Some(s))) else Err(InvalidTaxStatus(s))
    case SetTaxDueDate(s) => Ok(r.(taxDueDate := Some(s)))
    case SetArtEndDate(s) => Ok(r.(artEndDate := Some(s)))
    case SetMotStatus(s) =>
      if s in MotStatuses then Ok(r.(motStatus := Some(s))) else Err(InvalidMotStatus(s))
    case SetMotExpiryDate(s) => Ok(r.(motExpiryDate := Some(s)))
    case SetMake(s) => Ok(r.(make := Some(s)))
    case SetMonthOfFirstDvlaRegistration(s) => Ok(r.(monthOfFirstDvlaRegistration := Some(s)))
    case SetMonthOfFirstRegistration(s) => Ok(r.(monthOfFirstRegistration := Some(s)))
    case SetYearOfManufacture(n) => Ok(r.(yearOfManufacture := Some(n)))
    case SetEngineCapacity(n) => Ok(r.(engineCapacity := Some(n)))
    case SetCo2Emissions(n) => Ok(r.(co2Emissions := Some(n)))
    case SetFuelType(s) => Ok(r.(fuelType := Some(s)))
    case SetMarkedForExport(b) => Ok(r.(markedForExport := Some(b)))
    case SetColour(s) => Ok(r.(colour := Some(s), color := Some(s)))
    case SetColor(s) => Ok(r.(colour := Some(s), color := Some(s)))
    case SetTypeApproval(s) => Ok(r.(typeApproval := Some(s)))
    case SetWheelplan(s) => Ok(r.(wheelplan := Some(s)))
    case SetRevenueWeight(n) => Ok(r.(revenueWeight := Some(n)))
    case SetRealDrivingEmissions(s) => Ok(r.(realDrivingEmissions := Some(s)))
    case SetDateOfLastV5CIssued(s) => Ok(r.(dateOfLastV5CIssued := Some(s)))
    case SetEuroStatus(s) => Ok(r.(euroStatus := Some(s)))
  }

  /**
   * Frame of a setter: each field it targets now holds its argument, every
   * other field, the registration number included, is as it was.
   */
  lemma ApplyWritesOnlyTargets(r: Record, a: Setter, p: Property)
    requires Accepts(a)
    ensures FieldValue(Apply(r, a).value, p) == if p in Targets(a) then Written(a) else FieldValue(r, p)
  {
    if a.SetTaxStatus? || a.SetTaxDueDate? || a.SetArtEndDate? || a.SetMotStatus? ||
        a.SetMotExpiryDate? || a.SetMake? {
      ApplyWritesOnlyTargetsA(r, a, p);
    } else if a.SetMonthOfFirstDvlaRegistration? || a.SetMonthOfFirstRegistration? ||
        a.SetYearOfManufacture? || a.SetEngineCapacity? || a.SetCo2Emissions? {
      ApplyWritesOnlyTargetsB(r, a, p);
    } else if a.SetFuelType? || a.SetMarkedForExport? || a.SetColour? || a.SetColor? || a.SetTypeApproval? {
      ApplyWritesOnlyTargetsC(r, a, p);
    } else {
      ApplyWritesOnlyTargetsD(r, a, p);
    }
  }

  /** `ApplyWritesOnlyTargets` for the setters its `requires` lists; the split keeps each proof small. */
  lemma ApplyWritesOnlyTargetsA(r: Record, a: Setter, p: Property)
    requires Accepts(a) && (a.SetTaxStatus? || a.SetTaxDueDate? || a.SetArtEndDate? ||
        a.SetMotStatus? || a.SetMotExpiryDate? || a.SetMake?)
    ensures FieldValue(Apply(r, a).value, p) == if p in Targets(a) then Written(a) else FieldValue(r, p)
  {
  }

  /** `ApplyWritesOnlyTargets` for the setters its `requires` lists; the split keeps each proof small. */
  lemma ApplyWritesOnlyTargetsB(r: Record, a: Setter, p: Property)
    requires Accepts(a) && (a.SetMonthOfFirstDvlaRegistration? || a.SetMonthOfFirstRegistration? ||
        a.SetYearOfManufacture? || a.SetEngineCapacity? || a.SetCo2Emissions?)
    ensures FieldValue(Apply(r, a).value, p) == if p in Targets(a) then Written(a) else FieldValue(r, p)
  {
  }

  /** `ApplyWritesOnlyTargets` for the setters its `requires` lists; the split keeps each proof small. */
  lemma ApplyWritesOnlyTargetsC(r: Record, a: Setter, p: Property)
    requires Accepts(a) && (a.SetFuelType? || a.SetMarkedForExport? || a.SetColour? || a.SetColor? ||
        a.SetTypeApproval?)
    ensures FieldValue(Apply(r, a).value, p) == if p in Targets(a) then Written(a) else FieldValue(r, p)
  {
  }

  /** `ApplyWritesOnlyTargets` for the setters its `requires` lists; the split keeps each proof small. */
  lemma ApplyWritesOnlyTargetsD(r: Record, a: Setter, p: Property)
    requires Accepts(a) && (a.SetWheelplan? || a.SetRevenueWeight? || a.SetRealDrivingEmissions? ||
        a.SetDateOfLastV5CIssued? || a.SetEuroStatus?)
    ensures FieldValue(Apply(r, a).value, p) == if p in Targets(a) then Written(a) else FieldValue(r, p)
  {
  }

  /** `setColor` is an alias: it has exactly the effect of `setColour`. */
  lemma ColorIsColour(r: Record, c: string)
    ensures Apply(r, SetColor(c)) == Apply(r, SetColour(c))
    ensures Apply(r, SetColor(c)).Ok?
    ensures Getter(Apply(r, SetColor(c)).value, Colour) == Str(c)
    ensures Getter(Apply(r, SetColor(c)).value, Color) == Str(c)
  {
  }

  /** A vehicle record whose fields are updated in place by fluent setters. */
  class Vehicle {
    const registrationNumber: string
    var taxStatus: Option<string>
    var taxDueDate: Option<string>
    var artEndDate: Option<string>
    var motStatus: Option<string>
    var motExpiryDate: Option<string>
    var make: Option<string>
    var monthOfFirstDvlaRegistration: Option<string>
    var monthOfFirstRegistration: Option<string>
    var yearOfManufacture: Option<int>
    var engineCapacity: Option<int>
    var co2Emissions: Option<int>
    var fuelType: Option<string>
    var markedForExport: Option<bool>
    var colour: Option<string>
    var color: Option<string>
    var typeApproval: Option<string>
    var wheelplan: Option<string>
    var revenueWeight: Option<int>
    var realDrivingEmissions: Option<string>
    var dateOfLastV5CIssued: Option<string>
    var euroStatus: Option<string>

    /** The object's fields as a value. */
    function State(): Record
      reads this
    {
      Record(registrationNumber, taxStatus, taxDueDate, artEndDate, motStatus, motExpiryDate,
             make, monthOfFirstDvlaRegistration, monthOfFirstRegistration, yearOfManufacture,
             engineCapacity, co2Emissions, fuelType, markedForExport, colour, color,
             typeApproval, wheelplan, revenueWeight, realDrivingEmissions,
             dateOfLastV5CIssued, euroStatus)
    }

    ghost predicate Valid()
      reads this
    {
      Consistent(State())
    }

    constructor(registrationNumber: string)
      ensures Valid()
      ensures State() == New(registrationNumber)
    {
      this.registrationNumber := registrationNumber;
      taxStatus, taxDueDate, artEndDate, motStatus, motExpiryDate := None, None, None, None, None;
      make, monthOfFirstDvlaRegistration, monthOfFirstRegistration := None, None, None;
      yearOfManufacture, engineCapacity, co2Emissions, fuelType := None, None, None, None;
      markedForExport, colour, color, typeApproval, wheelplan := None, None, None, None, None;
      revenueWeight, realDrivingEmissions, dateOfLastV5CIssued, euroStatus := None, None, None, None;
    }

    method SetTaxStatus(taxStatus: string) returns (res: Result<Vehicle, Failure>)
      requires Valid()
      modifies this`taxStatus
      ensures Valid()
      ensures Apply(old(State()), Setter.SetTaxStatus(taxStatus)) ==
        if res.Ok? then Ok(State()) else Err(res.error)
      ensures res.Ok? ==> res.value == this
      ensures res.Err? ==> State() == old(State())
    {
      if taxStatus !in TaxStatuses {
        return Err(InvalidTaxStatus(taxStatus));
      }
      this.taxStatus := Some(taxStatus);
      res := Ok(this);
    }

    method SetTaxDueDate(taxDueDate: string) returns (self: Vehicle)
      requires Valid()
      modifies this`taxDueDate
      ensures Valid() && self == this
      ensures Apply(old(State()), Setter.SetTaxDueDate(taxDueDate)) == Ok(State())
    {
      this.taxDueDate := Some(taxDueDate);
      self := this;
    }

    method SetArtEndDate(artEndDate: string) returns (self: Vehicle)
      requires Valid()
      modifies this`artEndDate
      ensures Valid() && self == this
      ensures Apply(old(State()), Setter.SetArtEndDate(artEndDate)) == Ok(State())
    {
      this.artEndDate := Some(artEndDate);
      self := this;
    }

    method SetMotStatus(motStatus: string) returns (res: Result<Vehicle, Failure>)
      requires Valid()
      modifies this`motStatus
      ensures Valid()
      ensures Apply(old(State()), Setter.SetMotStatus(motStatus)) ==
        if res.Ok? then Ok(State()) else Err(res.error)
      ensures res.Ok? ==> res.value == this
      ensures res.Err? ==> State() == old(State())
    {
      if motStatus !in MotStatuses {
        return Err(InvalidMotStatus(motStatus));
      }
      this.motStatus := Some(motStatus);
      res := Ok(this);
    }

    method SetMotExpiryDate(motExpiryDate: string) returns (self: Vehicle)
      requires Valid()
      modifies this`motExpiryDate
      ensures Valid() && self == this
      ensures Apply(old(State()), Setter.SetMotExpiryDate(motExpiryDate)) == Ok(State())
    {
      this.motExpiryDate := Some(motExpiryDate);
      self := this;
    }

    method SetMake(make: string) returns (self: Vehicle)
      requires Valid()
      modifies this`make
      ensures Valid() && self == this
      ensures Apply(old(State()), Setter.SetMake(make)) == Ok(State())
    {
      this.make := Some(make);
      self := this;
    }

    method SetMonthOfFirstDvlaRegistration(monthOfFirstDvlaRegistration: string) returns (self: Vehicle)
      requires Valid()
      modifies this`monthOfFirstDvlaRegistration
      ensures Valid() && self == this
      ensures Apply(old(State()), Setter.SetMonthOfFirstDvlaRegistration(monthOfFirstDvlaRegistration))
        == Ok(State())
    {
      this.monthOfFirstDvlaRegistration := Some(monthOfFirstDvlaRegistration);
      self := this;
    }

    method SetMonthOfFirstRegistration(monthOfFirstRegistration: string) returns (self: Vehicle)
      requires Valid()
      modifies this`monthOfFirstRegistration
      ensures Valid() && self == this
      ensures Apply(old(State()), Setter.SetMonthOfFirstRegistration(monthOfFirstRegistration))
        == Ok(State())
    {
      this.monthOfFirstRegistration := Some(monthOfFirstRegistration);
      self := this;
    }

    method SetYearOfManufacture(yearOfManufacture: int) returns (self: Vehicle)
      requires Valid()
      modifies this`yearOfManufacture
      ensures Valid() && self == this
      ensures Apply(old(State()), Setter.SetYearOfManufacture(yearOfManufacture)) == Ok(State())
    {
      this.yearOfManufacture := Some(yearOfManufacture);
      self := this;
    }

    method SetEngineCapacity(engineCapacity: int) returns (self: Vehicle)
      requires Valid()
      modifies this`engineCapacity
      ensures Valid() && self == this
      ensures Apply(old(State()), Setter.SetEngineCapacity(engineCapacity)) == Ok(State())
    {
      this.engineCapacity := Some(engineCapacity);
      self := this;
    }

    method SetCo2Emissions(co2Emissions: int) returns (self: Vehicle)
      requires Valid()
      modifies this`co2Emissions
      ensures Valid() && self == this
      ensures Apply(old(State()), Setter.SetCo2Emissions(co2Emissions)) == Ok(State())
    {
      this.co2Emissions := Some(co2Emissions);
      self := this;
    }

    method SetFuelType(fuelType: string) returns (self: Vehicle)
      requires Valid()
      modifies this`fuelType
      ensures Valid() && self == this
      ensures Apply(old(State()), Setter.SetFuelType(fuelType)) == Ok(State())
    {
      this.fuelType := Some(fuelType);
      self := this;
    }

    method SetMarkedForExport(markedForExport: bool) returns (self: Vehicle)
      requires Valid()
      modifies this`markedForExport
      ensures Valid() && self == this
      ensures Apply(old(State()), Setter.SetMarkedForExport(markedForExport)) == Ok(State())
    {
      this.markedForExport := Some(markedForExport);
      self := this;
    }

    method SetColour(colour: string) returns (self: Vehicle)
      requires Valid()
      modifies this`colour, this`color
      ensures Valid() && self == this
      ensures Apply(old(State()), Setter.SetColour(colour)) == Ok(State())
    {
      this.colour := Some(colour);
      this.color := Some(colour);
      self := this;
    }

    /** The alias: delegates to `SetColour`. */
    method SetColor(color: string) returns (self: Vehicle)
      requires Valid()
      modifies this`colour, this`color
      ensures Valid() && self == this
      ensures Apply(old(State()), Setter.SetColor(color)) == Ok(State())
    {
      self := SetColour(color);
    }

    method SetTypeApproval(typeApproval: string) returns (self: Vehicle)
      requires Valid()
      modifies this`typeApproval
      ensures Valid() && self == this
      ensures Apply(old(State()), Setter.SetTypeApproval(typeApproval)) == Ok(State())
    {
      this.typeApproval := Some(typeApproval);
      self := this;
    }

    method SetWheelplan(wheelplan: string) returns (self: Vehicle)
      requires Valid()
      modifies this`wheelplan
      ensures Valid() && self == this
      ensures Apply(old(State()), Setter.SetWheelplan(wheelplan)) == Ok(State())
    {
      this.wheelplan := Some(wheelplan);
      self := this;
    }

    method SetRevenueWeight(revenueWeight: int) returns (self: Vehicle)
      requires Valid()
      modifies this`revenueWeight
      ensures Valid() && self == this
      ensures Apply(old(State()), Setter.SetRevenueWeight(revenueWeight)) == Ok(State())
    {
      this.revenueWeight := Some(revenueWeight);
      self := this;
    }

    method SetRealDrivingEmissions(realDrivingEmissions: string) returns (self: Vehicle)
      requires Valid()
      modifies this`realDrivingEmissions
      ensures Valid() && self == this
      ensures Apply(old(State()), Setter.SetRealDrivingEmissions(realDrivingEmissions)) == Ok(State())
    {
      this.realDrivingEmissions := Some(realDrivingEmissions);
      self := this;
    }

    method SetDateOfLastV5CIssued(dateOfLastV5CIssued: string) returns (self: Vehicle)
      requires Valid()
      modifies this`dateOfLastV5CIssued
      ensures Valid() && self == this
      ensures Apply(old(State()), Setter.SetDateOfLastV5CIssued(dateOfLastV5CIssued)) == Ok(State())
    {
      this.dateOfLastV5CIssued := Some(dateOfLastV5CIssued);
      self := this;
    }

    method SetEuroStatus(euroStatus: string) returns (self: Vehicle)
      requires Valid()
      modifies this`euroStatus
      ensures Valid() && self == this
      ensures Apply(old(State()), Setter.SetEuroStatus(euroStatus)) == Ok(State())
    {
      this.euroStatus := Some(euroStatus);
      self := this;
    }

    /**
     * `__get`: a property name yields that property's getter value; any
     * other name throws "Property not found".
     */
    function Get(name: string): (res: Result<Value, Failure>)
      reads this
      ensures forall p :: Name(p) == name ==> res == Ok(Getter(State(), p))
      ensures res == Err(PropertyNotFound) <==> forall p :: Name(p) != name
    {
      match PropertyNamed(name)
      case Some(p) => NameDetermines(p); Ok(Getter(State(), p))
      case None => Err(PropertyNotFound)
    }
  }
}
