/** accounts/serializers.py: user creation defaults, the in-place user update,
    the role-specific profile lookup and the two small validators. */
module AccountsSerializers {
  import opened Wrappers
  import opened AccountsModels
  import PyText

  /** The writable fields of UserSerializer (the id is read-only). */
  datatype Field =
    | UsernameField | EmailField | PasswordField | RoleField | PhoneNumberField | FirstNameField | LastNameField

  /** The stored password. `set_password` hashes; the hash itself is not
      modelled, only which raw password it was derived from. */
  datatype Credential = NoPassword | HashOf(raw: string)

  /** The keyword arguments `create` passes to `create_user`. */
  datatype NewUser = NewUser(
    username: string, email: string, password: string, role: string,
    phoneNumber: string, firstName: string, lastName: string)

  function Get(data: map<Field, string>, f: Field, default: string): string {
    if f in data then data[f] else default
  }

  /** `UserSerializer.create`: username and password are required by the
      serializer; the other fields default to "" and the role to "staff". */
  function CreateUserArgs(data: map<Field, string>): (u: NewUser)
    requires UsernameField in data && PasswordField in data
    ensures u.username == data[UsernameField] && u.password == data[PasswordField]
    ensures EmailField in data ==> u.email == data[EmailField]
    ensures EmailField !in data ==> u.email == ""
    ensures RoleField in data ==> u.role == data[RoleField]
    ensures RoleField !in data ==> u.role == Code(DefaultRole)
    ensures PhoneNumberField in data ==> u.phoneNumber == data[PhoneNumberField]
    ensures PhoneNumberField !in data ==> u.phoneNumber == ""
    ensures FirstNameField in data ==> u.firstName == data[FirstNameField]
    ensures FirstNameField !in data ==> u.firstName == ""
    ensures LastNameField in data ==> u.lastName == data[LastNameField]
    ensures LastNameField !in data ==> u.lastName == ""
  {
    NewUser(
      data[UsernameField],
      Get(data, EmailField, ""),
      data[PasswordField],
      Get(data, RoleField, "staff"),
      Get(data, PhoneNumberField, ""),
      Get(data, FirstNameField, ""),
      Get(data, LastNameField, ""))
  }

  /** A user created without a role, or with a role the serializer accepted,
      holds a listed role code; the default agrees with CustomUser's field default. */
  lemma CreatedRoleIsListed(data: map<Field, string>)
    requires UsernameField in data && PasswordField in data
    requires RoleField in data ==> IsRoleCode(data[RoleField])
    ensures IsRoleCode(CreateUserArgs(data).role)
    ensures RoleField !in data ==> ParseRole(CreateUserArgs(data).role) == Some(DefaultRole)
  {
  }

  /** The index of the last '@' among the first `j` characters of `s`, or -1. */
  function LastAt(s: string, j: nat): (k: int)
    requires j <= |s|
    ensures -1 <= k < j
    ensures k >= 0 ==> s[k] == '@'
    ensures forall m :: k < m < j ==> s[m] != '@'
    decreases j
  {
    if j == 0 then -1 else if s[j - 1] == '@' then j - 1 else LastAt(s, j - 1)
  }

  /** Python's `s.rsplit('@', 1)` when it gives two parts: the text before the
      last '@' and the text after it. None when `s` has no '@'. */
  function SplitAtLast(s: string): (r: Option<(string, string)>)
    ensures r.None? <==> '@' !in s
    ensures r.Some? ==> s == r.value.0 + "@" + r.value.1 && '@' !in r.value.1
  {
    var k := LastAt(s, |s|);
    if k < 0 then None
    else
      assert s == s[..k] + "@" + s[k + 1..];
      var rest := s[k + 1..];
      assert forall m :: 0 <= m < |rest| ==> rest[m] == s[k + 1 + m];
      Some((s[..k], s[k + 1..]))
  }

  /** An address with no '@' after a given one splits at that one. */
  lemma SplitAtLastUnique(name: string, domain: string)
    requires '@' !in domain
    ensures SplitAtLast(name + "@" + domain) == Some((name, domain))
  {
    var s := name + "@" + domain;
    var k := LastAt(s, |s|);
    assert s[|name|] == '@';
    assert k == |name|;
    assert s[..k] == name && s[k + 1..] == domain;
  }

  /** `BaseUserManager.normalize_email`, which `create_user` applies: when the
      stripped address has an '@', the part after the last one is lower-cased;
      an address without '@' is kept as it was given. */
  function NormalizeEmail(email: string): (r: string)
    ensures '@' !in email ==> r == email
    ensures '@' in email ==> var parts := SplitAtLast(PyText.Strip(email)).value;
      r == parts.0 + "@" + PyText.Lower(parts.1)
  {
    PyText.StripKeepsNonSpace(email, '@');
    match SplitAtLast(PyText.Strip(email))
    case None => email
    case Some(parts) => parts.0 + "@" + PyText.Lower(parts.1)
  }

  /** A normalised address is normalised already: the local part is kept and
      the domain stays lower-case. */
  lemma {:induction false} NormalizeEmailIdempotent(email: string)
    ensures NormalizeEmail(NormalizeEmail(email)) == NormalizeEmail(email)
  {
    if '@' in email {
      PyText.StripKeepsNonSpace(email, '@');
      var t := PyText.Strip(email);
      var parts := SplitAtLast(t).value;
      var name, domain := parts.0, parts.1;
      var lower := PyText.Lower(domain);
      var r := name + "@" + lower;
      assert r == NormalizeEmail(email);
      assert '@' !in lower by {
        forall i | 0 <= i < |domain| ensures lower[i] != '@' {
          PyText.LowerCharKeeps(domain[i]);
          assert domain[i] != '@';
        }
      }
      assert !PyText.IsSpace(r[0]) by {
        if name != [] {
          assert r[0] == t[0];
        }
      }
      assert !PyText.IsSpace(r[|r| - 1]) by {
        if domain != [] {
          assert t[|t| - 1] == domain[|domain| - 1];
          PyText.LowerCharKeeps(domain[|domain| - 1]);
        }
      }
      PyText.StripUnspaced(r);
      assert '@' in r by {
        assert r[|name|] == '@';
      }
      SplitAtLastUnique(name, lower);
      PyText.LowerIdempotent(domain);
    }
  }

  /** An address without surrounding whitespace keeps its local part and gets
      its domain, the text after the last '@', lower-cased. */
  lemma NormalizeEmailParts(name: string, domain: string)
    requires '@' !in domain
    requires name != [] && !PyText.IsSpace(name[0])
    requires domain != [] && !PyText.IsSpace(domain[|domain| - 1])
    ensures NormalizeEmail(name + "@" + domain) == name + "@" + PyText.Lower(domain)
  {
    var s := name + "@" + domain;
    assert s[0] == name[0] && s[|s| - 1] == domain[|domain| - 1] && s[|name|] == '@';
    PyText.StripUnspaced(s);
    SplitAtLastUnique(name, domain);
  }

  /** A user instance: its plain attributes and its password credential. */
  class User {
    var attrs: map<Field, string>
    var password: Credential

    /** The password is never a plain attribute. */
    ghost predicate Valid()
      reads this
    {
      PasswordField !in attrs
    }

    /** `create_user`: the attributes from the arguments, the address
        normalised, then `set_password`. */
    constructor (u: NewUser)
      ensures Valid()
      ensures attrs == map[UsernameField := u.username, EmailField := NormalizeEmail(u.email), RoleField := u.role,
                           PhoneNumberField := u.phoneNumber, FirstNameField := u.firstName,
                           LastNameField := u.lastName]
      ensures password == HashOf(u.password)
    {
      attrs := map[UsernameField := u.username, EmailField := NormalizeEmail(u.email), RoleField := u.role,
                   PhoneNumberField := u.phoneNumber, FirstNameField := u.firstName,
                   LastNameField := u.lastName];
      password := HashOf(u.password);
    }

    /** `set_password`: replaces the credential and nothing else. */
    method SetPassword(raw: string)
      modifies this`password
      ensures password == HashOf(raw)
    {
      password := HashOf(raw);
    }

    /** `UserSerializer.update`: the password is popped from the data, every other
        key is written onto the instance with setattr, and the password is set
        through `set_password` only when it is present and non-empty. */
    method Update(data: map<Field, string>)
      requires Valid()
      modifies this
      ensures Valid()
      ensures attrs == old(attrs) + (data - {PasswordField})
      ensures forall f :: f !in data && f in old(attrs) ==> f in attrs && attrs[f] == old(attrs)[f]
      ensures password == if PasswordField in data && data[PasswordField] != "" then HashOf(data[PasswordField]) else old(password)
    {
      var newPassword := if PasswordField in data then Some(data[PasswordField]) else None;
      var rest := data - {PasswordField};
      var pending := rest.Keys;
      while pending != {}
        invariant pending <= rest.Keys
        invariant attrs == old(attrs) + (rest - pending)
        invariant password == old(password)
        decreases pending
      {
        var key :| key in pending;
        attrs := attrs[key := rest[key]];
        pending := pending - {key};
      }
      if newPassword.Some? && newPassword.value != "" {
        SetPassword(newPassword.value);
      }
    }

    /** The serializer's output: the password is write-only and never appears. */
    function Representation(): (out: map<Field, string>)
      reads this
      ensures PasswordField !in out
      ensures forall f :: f in attrs && f != PasswordField ==> f in out && out[f] == attrs[f]
    {
      attrs - {PasswordField}
    }
  }

  /** What the two profile serializers output. */
  datatype ProfileData =
    | PatientData(dateOfBirth: Option<Date>, gender: string, address: string,
                  emergencyContactName: string, emergencyContactPhone: string)
    | DoctorData(licenseNumber: string, yearsOfExperience: nat)

  function PatientDataOf(p: PatientProfile): ProfileData {
    PatientData(p.dateOfBirth, GenderCode(p.gender), p.address, p.emergencyContactName, p.emergencyContactPhone)
  }

  function DoctorDataOf(d: DoctorProfile): ProfileData {
    DoctorData(d.licenseNumber, d.yearsOfExperience)
  }

  /** `UserProfileSerializer.get_profile`: the patient profile for role "patient",
      the doctor profile for role "doctor", None when that profile is missing
      (DoesNotExist) and None for every other role. */
  function GetProfile(role: string, patient: Option<PatientProfile>, doctor: Option<DoctorProfile>): (r: Option<ProfileData>)
    ensures r.Some? <==> (role == "patient" && patient.Some?) || (role == "doctor" && doctor.Some?)
    ensures r.Some? && role == "patient" ==> r.value == PatientDataOf(patient.value)
    ensures r.Some? && role == "doctor" ==> r.value == DoctorDataOf(doctor.value)
  {
    if role == "patient" then
      match patient
      case Some(p) => Some(PatientDataOf(p))
      case None => None
    else if role == "doctor" then
      match doctor
      case Some(d) => Some(DoctorDataOf(d))
      case None => None
    else None
  }

  /** No listed role is "patient": for a user holding a listed role the patient
      branch is never taken, and only a doctor gets profile data. */
  lemma ListedRolesNeverGetPatientData(r: Role, patient: Option<PatientProfile>, doctor: Option<DoctorProfile>)
    ensures GetProfile(Code(r), patient, doctor).Some? <==> r == Doctor && doctor.Some?
    ensures GetProfile(Code(r), patient, doctor).Some? ==> GetProfile(Code(r), patient, doctor).value.DoctorData?
  {
    ParseCode(r);
  }

  datatype PasswordChange = PasswordChange(currentPassword: string, newPassword: string, confirmPassword: string)

  /** `PasswordChangeSerializer.validate`: refuses exactly when the new password and
      its confirmation differ; otherwise passes the data through. */
  function ValidatePasswordChange(d: PasswordChange): (r: Result<PasswordChange, string>)
    ensures r.Err? <==> d.newPassword != d.confirmPassword
    ensures r.Ok? ==> r.value == d
  {
    if d.newPassword != d.confirmPassword then Err("New passwords do not match.") else Ok(d)
  }

  /** `UserRoleUpdateSerializer`: a ChoiceField over USER_ROLES accepts exactly
      the listed codes. */
  function ValidateRoleUpdate(role: string): (r: Result<Role, string>)
    ensures r.Ok? <==> IsRoleCode(role)
    ensures r.Ok? ==> Code(r.value) == role
    ensures role == "patient" ==> r.Err?
  {
    match ParseRole(role)
    case Some(x) => Ok(x)
    case None => Err("\"" + role + "\" is not a valid choice.")
  }
}
