# dvla-ves vehicle enquiry: a Dafny model

This project models the core of the PHP client `billythekid/dvla-ves` for the
DVLA Vehicle Enquiry Service. That core is:

- **The vehicle record** (`src/models/Vehicle.php`). A `Vehicle` holds a
  registration number fixed by its constructor and twenty-one nullable fields.
  Fluent setters update those fields in place and return the same object.
  - `setTaxStatus` and `setMotStatus` accept only the four strings of their
    enumeration. Any other value throws `Exception("Invalid tax status: …")` or
    `Exception("Invalid MOT status: …")`.
  - `setColour` writes both spellings `colour` and `color`. `setColor` is an
    alias of `setColour`, and `getColor` returns `getColour()`.
  - `__get` maps the twenty-two property names to their getters and throws
    "Property not found" for any other name.
- **The client** (`src/Dvla.php`).
  - `Dvla` picks its base URL once, in its constructor: the UAT service in test
    mode, which is the default, and the live service otherwise.
  - `getVehicleDetails` posts `{registrationNumber: …}` with path
    `/v1/vehicles` through a client built with that `base_uri`.
  - On status 200 it pushes the twenty fields of the reply through the
    vehicle's setters in one fixed order. A setter that throws ends the chain,
    and what earlier setters wrote stays written: there is no rollback.
  - For any other status the POST returns, it throws
    `Exception("(code) title: detail", status)`, built from the first element
    of the reply's `errors` list.
  - `getVehicleDetailsByRegistrationNumber` does the same for a new `Vehicle`.

Files:

- `wrappers.dfy`: `Option` and `Result`.
- `errors.dfy`: the exceptions and TypeErrors the code raises (`Failure`).
- `vehicle.dfy`, module `Models`: the record as a value (`Record`), one setter
  call as a value (`Setter`) and its effect (`Apply`), the getters, and
  `__get`'s name dispatch.
  - Class `Vehicle` holds the same state in mutable fields.
  - Each setter method has a `modifies` frame of exactly the fields it
    assigns. It is proved to change `State()` exactly as `Apply` says, and to
    keep the invariant `Consistent`: both statuses are inside their
    enumerations, and `colour == color`.
- `dvla.dfy`, module `Dvla`: base-URL choice, the request, and the setter chain.
  - `Chain` is the chain as a list of steps. `Run` applies the steps in order
    and stops at the first one that throws. `Dispatch` is the whole reply
    handling.
  - Class `Dvla` has `GetVehicleDetails`, which calls the setters one after
    another on the vehicle object. It is proved to leave the vehicle in
    `Dispatch`'s state and to return or throw what `Dispatch` says.
  - The chain is written as four stage methods of five setter calls each, the
    same calls in the same order, so that each proof stays small.

The HTTP call is a parameter `transport` that maps the request to the decoded
reply. A key that is absent from the reply, or null, is `None`. The PHP code
passes that null to a setter whose parameter is not nullable, and PHP throws a
`TypeError` naming the parameter. The model has that chain step fail with
`TypeError(name)`, with the same no-rollback behaviour as any other throw.

The model does not add behaviour the code lacks:

- There is no registration-plate format check. The request carries whatever
  string the vehicle holds.
- There is no `live()`/`sandbox()` toggle. The environment is fixed in the
  constructor.
- Absent reply keys are not skipped. Each key is passed to its setter, and a
  missing one throws.

## Model

| member | source | states |
|---|---|---|
| Models.New | src/models/Vehicle.php:26-53 | A new vehicle holds its registration number and null in every other field, and satisfies the invariant |
| Models.Vehicle.constructor | src/models/Vehicle.php:50-53 | The constructed object's state is `New(registrationNumber)` and is valid |
| Models.Apply | src/models/Vehicle.php:64-310 | A setter call succeeds exactly when its argument is accepted (only the two status setters can refuse). A refusal carries the "Invalid tax status: s" / "Invalid MOT status: s" exception. No call changes the registration number, and every call keeps the enum and colour invariant |
| Models.ApplyWritesOnlyTargets | src/models/Vehicle.php:85-310 | Frame of every setter: the fields it targets now hold its argument; every other field, the registration number included, is unchanged |
| Models.ColorIsColour | src/models/Vehicle.php:227-244 | `setColor(c)` has exactly the effect of `setColour(c)` and leaves both `getColour` and `getColor` returning `c` |
| Models.Getter | src/models/Vehicle.php:353-527 | Each getter returns its own field; `getColor()` returns the `colour` field, as `getColour()` does; so on any record that keeps the invariant every getter, `getColor()` included, returns its own field |
| Models.GetterReadsOwnField | src/models/Vehicle.php:353-527 | Under the invariant every getter returns its own field, and `getColor()` equals `getColour()` |
| Models.Vehicle.SetTaxStatus | src/models/Vehicle.php:64-79 | Writes `taxStatus` and returns the same object when the value is one of the four tax statuses; otherwise throws "Invalid tax status: s" and changes nothing. The invariant is kept |
| Models.Vehicle.SetTaxDueDate | src/models/Vehicle.php:85-90 | Writes only `taxDueDate`, returns the same object, keeps the invariant |
| Models.Vehicle.SetArtEndDate | src/models/Vehicle.php:96-101 | Writes only `artEndDate`, returns the same object, keeps the invariant |
| Models.Vehicle.SetMotStatus | src/models/Vehicle.php:107-122 | Writes `motStatus` and returns the same object when the value is one of the four MOT statuses; otherwise throws "Invalid MOT status: s" and changes nothing. The invariant is kept |
| Models.Vehicle.SetMotExpiryDate | src/models/Vehicle.php:128-133 | Writes only `motExpiryDate`, returns the same object, keeps the invariant |
| Models.Vehicle.SetMake | src/models/Vehicle.php:139-144 | Writes only `make`, returns the same object, keeps the invariant |
| Models.Vehicle.SetMonthOfFirstDvlaRegistration | src/models/Vehicle.php:150-155 | Writes only `monthOfFirstDvlaRegistration`, returns the same object, keeps the invariant |
| Models.Vehicle.SetMonthOfFirstRegistration | src/models/Vehicle.php:161-166 | Writes only `monthOfFirstRegistration`, returns the same object, keeps the invariant |
| Models.Vehicle.SetYearOfManufacture | src/models/Vehicle.php:172-177 | Writes only `yearOfManufacture`, returns the same object, keeps the invariant |
| Models.Vehicle.SetEngineCapacity | src/models/Vehicle.php:183-188 | Writes only `engineCapacity`, returns the same object, keeps the invariant |
| Models.Vehicle.SetCo2Emissions | src/models/Vehicle.php:194-199 | Writes only `co2Emissions`, returns the same object, keeps the invariant |
| Models.Vehicle.SetFuelType | src/models/Vehicle.php:205-210 | Writes only `fuelType`, returns the same object, keeps the invariant |
| Models.Vehicle.SetMarkedForExport | src/models/Vehicle.php:216-221 | Writes only `markedForExport`, returns the same object, keeps the invariant |
| Models.Vehicle.SetColour | src/models/Vehicle.php:227-233 | Writes exactly `colour` and `color` with the same value, returns the same object, keeps `colour == color` |
| Models.Vehicle.SetColor | src/models/Vehicle.php:241-244 | Has the effect of `setColour` on the same object |
| Models.Vehicle.SetTypeApproval | src/models/Vehicle.php:250-255 | Writes only `typeApproval`, returns the same object, keeps the invariant |
| Models.Vehicle.SetWheelplan | src/models/Vehicle.php:261-266 | Writes only `wheelplan`, returns the same object, keeps the invariant |
| Models.Vehicle.SetRevenueWeight | src/models/Vehicle.php:272-277 | Writes only `revenueWeight`, returns the same object, keeps the invariant |
| Models.Vehicle.SetRealDrivingEmissions | src/models/Vehicle.php:283-288 | Writes only `realDrivingEmissions`, returns the same object, keeps the invariant |
| Models.Vehicle.SetDateOfLastV5CIssued | src/models/Vehicle.php:294-299 | Writes only `dateOfLastV5CIssued`, returns the same object, keeps the invariant |
| Models.Vehicle.SetEuroStatus | src/models/Vehicle.php:305-310 | Writes only `euroStatus`, returns the same object, keeps the invariant |
| Models.PropertyNamed | src/models/Vehicle.php:325-349 | A name is mapped to the property carrying that name; no property is found exactly when none carries it |
| Models.NameRoundTrip | src/models/Vehicle.php:325-349 | Every one of the 22 property names is dispatched to its own property |
| Models.NameDetermines | src/models/Vehicle.php:325-349 | No two properties share a name, so the dispatch is unambiguous |
| Models.Vehicle.Get | src/models/Vehicle.php:323-351 | `__get(name)` returns the matching getter's value for each of the 22 names, and throws "Property not found" exactly for the other names. This is the corrected version; see Findings |
| Models.GetAsDeclared | src/models/Vehicle.php:323-351 | `__get` under its declared `bool|int|string` return type: the getter's value when that is not null, a TypeError when it is null, and "Property not found" exactly for unknown names |
| Models.GetAsDeclaredFailsOnNewVehicle | src/models/Vehicle.php:323 | On a new vehicle, `__get` as declared throws a TypeError for every listed name except `registrationNumber` |
| Dvla.BaseUrl | src/Dvla.php:34 | The base URL is the UAT URL exactly in test mode and the live URL exactly otherwise |
| Dvla.Dvla.constructor | src/Dvla.php:28-35 | Test mode defaults to true and a missing correlation id to null. The base URL is fixed from the test-mode flag at construction |
| Dvla.Dvla.EnquiryFor | src/Dvla.php:57-65 | The request this client posts: the UAT base URL in test mode and the live base URL otherwise, path `/v1/vehicles`, the client's API key and correlation id, and the body `{registrationNumber: r}` with no other key |
| Dvla.RequestFor | src/Dvla.php:57-65 | A POST with the given `base_uri` and the path `/v1/vehicles`, carrying the API key and correlation id, whose JSON body has the single key `registrationNumber` holding the registration number |
| Dvla.ChainStep | src/Dvla.php:71-90 | A step of the chain either calls a setter or is a TypeError, the only error a step raises before any setter runs |
| Dvla.Chain | src/Dvla.php:71-90 | The chain has twenty steps. Every field but the registration number has a step, and that step is a setter call exactly when the reply supplies the field's key. Step `j` writes exactly the fields whose position (`Owner`) is `j`, and writes the reply's value for them; so the order of the steps is the order of the PHP calls as `Owner` lists it |
| Dvla.ChainStepReadsItsKey | src/Dvla.php:71-90 | The step that owns a property calls its setter exactly when the reply supplies that property's key |
| Dvla.MissingKeyNamed | src/Dvla.php:71-90 | A missing key makes its step the TypeError naming that key |
| Dvla.ChainOwnership | src/Dvla.php:71-90 | Step `j` of the chain (`ChainStep(j)`) calls the setter that owns position `j`, with the reply's value for the properties it writes (`colour` feeding both spellings) |
| Dvla.Run | src/Dvla.php:71-90 | The chain completes exactly when no step throws. The number of completed steps is within the chain, the registration number is never changed, and the invariant is kept |
| Dvla.StoppedByStep | src/Dvla.php:71-90 | A chain that stops was stopped by the step at its stop index, which throws exactly the reported failure |
| Dvla.CompletedStepSucceeded | src/Dvla.php:71-90 | Every step before the stop index was a setter call that accepted its argument |
| Dvla.NoRollback | src/Dvla.php:71-90 | No rollback: the record left by a stopped chain is what the completed steps alone produce |
| Dvla.Untouched | src/Dvla.php:71-90 | A field that no completed step writes keeps its previous value |
| Dvla.LastWriteWins | src/Dvla.php:71-90 | A field written by a completed step, and by no later completed step, holds what that step wrote |
| Dvla.ChainEffect | src/Dvla.php:71-90 | After the chain, each field holds the reply's value if its setter's position was reached, and its old value otherwise |
| Dvla.CompleteRunsThrough | src/Dvla.php:71-90 | A reply with every key present and valid statuses runs the whole chain without throwing |
| Dvla.CompleteMapping | src/Dvla.php:71-90 | For such a reply every field holds the reply's value, and `colour` and `color` both equal the reply's `colour` |
| Dvla.BadTaxStatusChangesNothing | src/Dvla.php:71 | An invalid or missing `taxStatus` stops the chain at its first step with the record unchanged, throwing the tax-status exception or the TypeError |
| Dvla.BadMotStatusKeepsFirstThree | src/Dvla.php:71-74 | An invalid `motStatus` after three good fields leaves `taxStatus`, `taxDueDate` and `artEndDate` written and every later field untouched, and throws "Invalid MOT status" |
| Dvla.ErrorFor | src/Dvla.php:93-95 | The exception for an error reply has the message "(code) title: detail" of `errors[0]` and that element's `status` as its code |
| Dvla.FirstErrorOnly | src/Dvla.php:94 | Only `errors[0]` matters: replies that agree on it throw the same exception |
| Dvla.Dispatch | src/Dvla.php:67-96 | A non-200 reply leaves the record unchanged and fails with `ErrorFor(errors)`. A 200 reply runs the chain. The registration number and the invariant are kept |
| Dvla.SetTaxAndMot | src/Dvla.php:71-75 | The first five setter calls on the vehicle: the vehicle's state advances exactly as `Run` over those steps, or stops where `Run` stops, with its failure |
| Dvla.SetRegistrationDetails | src/Dvla.php:76-80 | Setter calls six to ten, with the same relation to `Run` |
| Dvla.SetEmissionsAndLooks | src/Dvla.php:81-85 | Setter calls eleven to fifteen, with the same relation to `Run` |
| Dvla.SetWeightAndStatus | src/Dvla.php:86-90 | Setter calls sixteen to twenty, with the same relation to `Run` |
| Dvla.Dvla.GetVehicleDetails | src/Dvla.php:55-99 | The vehicle ends in `Dispatch`'s state for the reply to this client's request. The call returns the same vehicle exactly when `Dispatch` reports no failure, and throws `Dispatch`'s failure otherwise |
| Dvla.Dvla.GetVehicleDetailsByRegistrationNumber | src/Dvla.php:42-47 | Behaves as `GetVehicleDetails` on a fresh `Vehicle(registrationNumber)`, returning that new object |

## Left out

- The Guzzle client and its POST are not modelled.
- Status codes the HTTP client throws on are not modelled. The client is built with only `base_uri` (src/Dvla.php:33-35), so under Guzzle's default `http_errors` a 4xx or 5xx reply makes the `post` call throw before the status test. The `errors[0]` branch is then reached only for other non-200 statuses. The model hands every status to `Dispatch`.
- The URL the request reaches is not modelled. The path `/v1/vehicles` begins with "/", so resolving it against `base_uri` under section 5.2 of RFC 3986 replaces the base path `/vehicle-enquiry`. The model records `base_uri` and the path as the code passes them. The reply is the result of a pure parameter `transport`, so network failures and `GuzzleException` are not modelled.
- `json_decode` is not modelled. The decoded reply is typed: a field of the wrong JSON type, and PHP's scalar coercion of it, are not modelled. An absent or null key is `None` and throws a `TypeError` at its step.
- The API key and correlation id are carried in the request as the options the PHP code passes. The model makes no claim about which HTTP headers reach the wire, since that is decided inside Guzzle.
- Dvla.ErrorFor: an error reply whose `errors` list is empty yields `NoErrorElement`. PHP would read null properties with warnings, which is not modelled. The status is modelled as an integer, so the coercion of a numeric-string status to the exception code is not modelled.
- The `Vehicle` constructor's untyped parameter is modelled as a string.
- Models.Vehicle.Get: returns null (`Value.Null`) for a listed property whose field is unset. The code as written throws a TypeError there instead; see Findings.

## Findings

| source | as written | input that shows it | evidently intended | confidence | as-written member | corrected member |
|---|---|---|---|---|---|---|
| src/models/Vehicle.php:323 | `__get` is declared to return `bool|int|string`, but every getter it dispatches to returns a nullable value, so a null field makes `__get` throw a TypeError | `(new Vehicle("AB12CDE"))->make`, or any listed name other than `registrationNumber` on a vehicle that has not been looked up | return the getter's value, null included, as the getters themselves declare | high, not executed | Models.GetAsDeclaredFailsOnNewVehicle | Models.Vehicle.Get |
