/** accounts/models.py: the user roles, the string forms of users and
    profiles, and the constraints on the two profile tables. */
module AccountsModels {
  import opened Wrappers

  type UserId = int

  /** The eight entries of CustomUser.USER_ROLES. There is no patient role. */
  datatype Role =
    | Admin | Doctor | Nurse | Accountant | Receptionist | LabTechnician | Pharmacist | Staff

  /** The stored code of a role. */
  function Code(r: Role): string {
    match r
    case Admin => "admin"
    case Doctor => "doctor"
    case Nurse => "nurse"
    case Accountant => "accountant"
    case Receptionist => "receptionist"
    case LabTechnician => "lab_technician"
    case Pharmacist => "pharmacist"
    case Staff => "staff"
  }

  /** The human-readable name of a role, the second half of each choice. */
  function DisplayName(r: Role): string {
    match r
    case Admin => "Administrator"
    case Doctor => "Doctor"
    case Nurse => "Nurse"
    case Accountant => "Accountant"
    case Receptionist => "Receptionist"
    case LabTechnician => "Laboratory Technician"
    case Pharmacist => "Pharmacist"
    case Staff => "General Staff"
  }

  /** The role a new user gets when none is given. */
  const DefaultRole: Role := Staff

  /** The role whose code is `s`, if any: the check a ChoiceField over USER_ROLES makes. */
  function ParseRole(s: string): (r: Option<Role>)
    ensures r.Some? ==> Code(r.value) == s
  {
    if s == "admin" then Some(Admin)
    else if s == "doctor" then Some(Doctor)
    else if s == "nurse" then Some(Nurse)
    else if s == "accountant" then Some(Accountant)
    else if s == "receptionist" then Some(Receptionist)
    else if s == "lab_technician" then Some(LabTechnician)
    else if s == "pharmacist" then Some(Pharmacist)
    else if s == "staff" then Some(Staff)
    else None
  }

  predicate IsRoleCode(s: string) {
    ParseRole(s).Some?
  }

  /** Every role's code parses back to that role, so the codes are distinct. */
  lemma ParseCode(r: Role)
    ensures ParseRole(Code(r)) == Some(r)
  {
  }

  /** A string is a role code exactly when it is the code of some role;
      "patient" is not one of them. */
  lemma RoleCodes(s: string)
    ensures IsRoleCode(s) <==> exists r: Role :: Code(r) == s
    ensures !IsRoleCode("patient")
    ensures IsRoleCode(Code(DefaultRole)) && Code(DefaultRole) == "staff"
  {
    if exists r: Role :: Code(r) == s {
      var r: Role :| Code(r) == s;
      ParseCode(r);
    }
  }

  /** `get_role_display()`: the display name of a known code; Django returns an
      unknown stored value as it is. */
  function RoleDisplay(code: string): (d: string)
    ensures ParseRole(code).Some? ==> d == DisplayName(ParseRole(code).value)
    ensures ParseRole(code).None? ==> d == code
  {
    match ParseRole(code)
    case Some(r) => DisplayName(r)
    case None => code
  }

  /** `CustomUser.__str__`: "username (display name)". */
  function UserLabel(username: string, role: string): (s: string)
    ensures |s| == |username| + |RoleDisplay(role)| + 3
    ensures s[..|username|] == username
    ensures s[|username|..] == " (" + RoleDisplay(role) + ")"
  {
    var tail := " (" + RoleDisplay(role) + ")";
    assert (username + tail)[..|username|] == username && (username + tail)[|username|..] == tail;
    username + tail
  }

  /** The role whose display name is `d`, if any. */
  function RoleOfDisplay(d: string): Option<Role> {
    if d == "Administrator" then Some(Admin)
    else if d == "Doctor" then Some(Doctor)
    else if d == "Nurse" then Some(Nurse)
    else if d == "Accountant" then Some(Accountant)
    else if d == "Receptionist" then Some(Receptionist)
    else if d == "Laboratory Technician" then Some(LabTechnician)
    else if d == "Pharmacist" then Some(Pharmacist)
    else if d == "General Staff" then Some(Staff)
    else None
  }

  /** Display names determine their role, so no two roles share one. */
  lemma DisplayNameDetermines(r: Role)
    ensures RoleOfDisplay(DisplayName(r)) == Some(r)
  {
  }

  /** The display name sits between " (" and the closing ")" of the label. */
  lemma LabelDisplay(username: string, code: string)
    ensures var s := UserLabel(username, code);
      |username| + 2 <= |s| - 1 && s[|username| + 2..|s| - 1] == RoleDisplay(code)
  {
    var s := UserLabel(username, code);
    var tail := " (" + RoleDisplay(code) + ")";
    assert s[|username|..] == tail;
    assert s[|username| + 2..|s| - 1] == tail[2..|tail| - 1];
  }

  /** Two users with the same name and different role codes print differently. */
  lemma UserLabelDistinguishesRoles(username: string, r1: Role, r2: Role)
    requires r1 != r2
    ensures UserLabel(username, Code(r1)) != UserLabel(username, Code(r2))
  {
    ParseCode(r1);
    ParseCode(r2);
    LabelDisplay(username, Code(r1));
    LabelDisplay(username, Code(r2));
    DisplayNameDetermines(r1);
    DisplayNameDetermines(r2);
  }

  /** The choices of PatientProfile.gender. */
  datatype Gender = Male | Female | Other

  function GenderCode(g: Gender): string {
    match g
    case Male => "Male"
    case Female => "Female"
    case Other => "Other"
  }

  function ParseGender(s: string): (g: Option<Gender>)
    ensures g.Some? ==> GenderCode(g.value) == s
  {
    if s == "Male" then Some(Male)
    else if s == "Female" then Some(Female)
    else if s == "Other" then Some(Other)
    else None
  }

  lemma GenderRoundTrip(g: Gender, s: string)
    ensures ParseGender(GenderCode(g)) == Some(g)
    ensures ParseGender(s).Some? <==> s in {"Male", "Female", "Other"}
  {
  }

  datatype Date = Date(year: int, month: int, day: int)

  datatype PatientProfile = PatientProfile(
    user: UserId,
    dateOfBirth: Option<Date>,
    gender: Gender,
    address: string,
    emergencyContactName: string,
    emergencyContactPhone: string)

  /** years_of_experience is a PositiveIntegerField: zero or more. */
  datatype DoctorProfile = DoctorProfile(user: UserId, licenseNumber: string, yearsOfExperience: nat)

  /** `PatientProfile.__str__`: the user's name and " (Patient)". */
  function PatientProfileLabel(username: string): (s: string)
    ensures |s| == |username| + 10
    ensures s[..|username|] == username && s[|username|..] == " (Patient)"
  {
    var tail := " (Patient)";
    assert (username + tail)[..|username|] == username && (username + tail)[|username|..] == tail;
    username + tail
  }

  /** `DoctorProfile.__str__`: the user's name and " (Doctor)". */
  function DoctorProfileLabel(username: string): (s: string)
    ensures |s| == |username| + 9
    ensures s[..|username|] == username && s[|username|..] == " (Doctor)"
  {
    var tail := " (Doctor)";
    assert (username + tail)[..|username|] == username && (username + tail)[|username|..] == tail;
    username + tail
  }

  /** A doctor's profile prints exactly like the doctor's user. */
  lemma DoctorProfileLabelIsUserLabel(username: string)
    ensures DoctorProfileLabel(username) == UserLabel(username, Code(Doctor))
  {
    ParseCode(Doctor);
    var doctor := UserLabel(username, Code(Doctor));
    assert doctor == doctor[..|username|] + doctor[|username|..];
  }

  /** No role is displayed as "Patient". */
  lemma NoPatientDisplay()
    ensures RoleOfDisplay("Patient") == None
  {
  }

  /** No user holding a listed role prints like a patient profile. */
  lemma PatientProfileLabelUnlikeUsers(username: string, r: Role)
    ensures PatientProfileLabel(username) != UserLabel(username, Code(r))
  {
    ParseCode(r);
    LabelDisplay(username, Code(r));
    DisplayNameDetermines(r);
    NoPatientDisplay();
    var patient := PatientProfileLabel(username);
    assert patient[|username| + 2..|patient| - 1] == "Patient";
  }

  /** The constraints of the doctor profile table: one profile per user
      (OneToOneField) and unique licence numbers. */
  ghost predicate DoctorTableValid(t: seq<DoctorProfile>) {
    forall i, j :: 0 <= i < j < |t| ==> t[i].user != t[j].user && t[i].licenseNumber != t[j].licenseNumber
  }

  /** One patient profile per user (OneToOneField). */
  ghost predicate PatientTableValid(t: seq<PatientProfile>) {
    forall i, j :: 0 <= i < j < |t| ==> t[i].user != t[j].user
  }

  datatype IntegrityError = DuplicateUser | DuplicateLicenseNumber

  /** Inserting a doctor profile: the database refuses a second profile for the
      same user or a licence number already in use. */
  function InsertDoctorProfile(t: seq<DoctorProfile>, p: DoctorProfile): (r: Result<seq<DoctorProfile>, IntegrityError>)
    ensures r.Err? <==> exists q :: q in t && (q.user == p.user || q.licenseNumber == p.licenseNumber)
    ensures r.Ok? ==> r.value == t + [p]
    ensures DoctorTableValid(t) && r.Ok? ==> DoctorTableValid(r.value)
  {
    if exists q :: q in t && q.user == p.user then Err(DuplicateUser)
    else if exists q :: q in t && q.licenseNumber == p.licenseNumber then Err(DuplicateLicenseNumber)
    else Ok(t + [p])
  }

  /** Inserting a patient profile: at most one per user. */
  function InsertPatientProfile(t: seq<PatientProfile>, p: PatientProfile): (r: Result<seq<PatientProfile>, IntegrityError>)
    ensures r.Err? <==> exists q :: q in t && q.user == p.user
    ensures r.Ok? ==> r.value == t + [p]
    ensures PatientTableValid(t) && r.Ok? ==> PatientTableValid(r.value)
  {
    if exists q :: q in t && q.user == p.user then Err(DuplicateUser) else Ok(t + [p])
  }
}
