/** patients/serializers.py: the two field validators of PatientSerializer,
    with today's date and the set of medical record numbers in use as inputs. */
module PatientsSerializers {
  import opened Wrappers
  import opened AccountsModels

  /** Calendar order of two dates, as Python compares `date` objects. */
  predicate After(a: Date, b: Date) {
    a.year > b.year
    || (a.year == b.year && a.month > b.month)
    || (a.year == b.year && a.month == b.month && a.day > b.day)
  }

  /** `After` is a strict order: irreflexive, asymmetric and transitive. */
  lemma AfterIsStrictOrder(a: Date, b: Date, c: Date)
    ensures !After(a, a)
    ensures After(a, b) ==> !After(b, a)
    ensures After(a, b) && After(b, c) ==> After(a, c)
  {
  }

  /** `validate_date_of_birth`: refuses a date after today; otherwise returns it. */
  function ValidateDateOfBirth(value: Date, today: Date): (r: Result<Date, string>)
    ensures r.Err? <==> After(value, today)
    ensures r.Ok? ==> r.value == value
  {
    if After(value, today) then Err("Date of birth cannot be in the future.") else Ok(value)
  }

  /** A birth date of today itself is accepted, and so is any earlier date. */
  lemma TodayAccepted(today: Date, earlier: Date)
    requires After(today, earlier)
    ensures ValidateDateOfBirth(today, today) == Ok(today)
    ensures ValidateDateOfBirth(earlier, today) == Ok(earlier)
  {
    AfterIsStrictOrder(today, earlier, today);
  }

  /** `validate_medical_record_number`: on create (no instance) a number already
      in use is refused; on update nothing is refused; the value passes through. */
  function ValidateMedicalRecordNumber(value: string, hasInstance: bool, inUse: set<string>): (r: Result<string, string>)
    ensures r.Err? <==> !hasInstance && value in inUse
    ensures r.Ok? ==> r.value == value
  {
    if !hasInstance && value in inUse then Err("A patient with this medical record number already exists.")
    else Ok(value)
  }
}
