/**
 * frontend/src/app/home/home.page.ts: the registration and login forms of the home page.
 * The register form keeps one control per field, each with a value and a list of validators;
 * `applyRegisterValidators` rewrites the validators and wipes the values of the six
 * role-dependent controls whenever the user type changes. Submitting builds the request body
 * the backend's registration and login read.
 */
module HomePage {
  import opened JsValues
  import opened Http
  import AuthService
  import Schema

  /** The Angular validators the page uses, apart from the email format (a parameter). */
  datatype Rule = Required | MinLength(n: nat)

  datatype Control = Control(value: string, rules: seq<Rule>)

  /** The controls of the register form, by their form names. */
  datatype Field = UserType | Email | FullName | Name | Nif | Cif | Phone | SocietyId | Profession
                 | Diagnosis | Location | Password | ConfirmPassword

  /** The controls applyRegisterValidators rewrites. */
  predicate Conditional(name: Field) {
    name.FullName? || name.Name? || name.Nif? || name.Cif? || name.Location? || name.SocietyId?
  }

  /** `Validators.required` fails on the empty value; `Validators.minLength(n)` lets the empty value through. */
  predicate Satisfies(value: string, r: Rule) {
    match r
    case Required => value != ""
    case MinLength(n) => value == "" || |value| >= n
  }

  predicate ControlValid(c: Control) {
    forall i :: 0 <= i < |c.rules| ==> Satisfies(c.value, c.rules[i])
  }

  /** `form.value[name]`; every control the page reads exists, and a missing one reads as empty. */
  function Get(controls: map<Field, Control>, name: Field): string {
    if name in controls then controls[name].value else ""
  }

  /** mapRole: 'therapist' and 'centre' map to their roles, anything else to PATIENT. */
  function MapRole(userType: string): (role: string)
    ensures role == THERAPIST <==> userType == "therapist"
    ensures role == CENTRE <==> userType == "centre"
    ensures role == PATIENT <==> userType != "therapist" && userType != "centre"
    ensures role != ADMIN
  {
    if userType == "therapist" then THERAPIST
    else if userType == "centre" then CENTRE
    else PATIENT
  }

  /** The backend keeps every role the page can send. */
  lemma MapRoleIsNormal(userType: string)
    ensures AuthService.NormalizeRole(Some(MapRole(userType))) == MapRole(userType)
  {
  }

  /** passwordMatchValidator: the group reports passwordMismatch exactly when the two values differ. */
  predicate PasswordMismatch(controls: map<Field, Control>) {
    Get(controls, Password) != Get(controls, ConfirmPassword)
  }

  /** The three cases applyRegisterValidators tells apart: 'centre', 'therapist', and any other user type. */
  datatype Kind = CentreKind | TherapistKind | PatientKind

  function KindOf(userType: string): (k: Kind)
    ensures k == CentreKind <==> userType == "centre"
    ensures k == TherapistKind <==> userType == "therapist"
  {
    if userType == "centre" then CentreKind
    else if userType == "therapist" then TherapistKind
    else PatientKind
  }

  /** The validators applyRegisterValidators leaves on a role-dependent control for a user type. */
  function RulesFor(kind: Kind, name: Field): seq<Rule> {
    match name
    case Name => if kind == CentreKind then [Required, MinLength(2)] else []
    case Cif => if kind == CentreKind then [Required, MinLength(6)] else []
    case Location => if kind == CentreKind then [Required, MinLength(5)] else []
    case FullName => if kind == CentreKind then [] else [Required, MinLength(2)]
    case Nif => if kind == CentreKind then [] else [Required, MinLength(6)]
    case SocietyId => if kind == TherapistKind then [Required, MinLength(3)] else []
    case _ => []
  }

  /** Whether applyRegisterValidators resets a control's value for a user type. */
  predicate WipedFor(kind: Kind, name: Field) {
    match name
    case Name | Cif | Location => kind != CentreKind
    case FullName | Nif => kind == CentreKind
    case SocietyId => kind != TherapistKind
    case _ => false
  }

  /** The state applyRegisterValidators leaves a control in, given the one it found. */
  predicate AppliedAt(kind: Kind, before: map<Field, Control>, after: map<Field, Control>, name: Field) {
    name in before && name in after
    && after[name].rules == RulesFor(kind, name)
    && after[name].value == (if WipedFor(kind, name) then "" else before[name].value)
  }

  /**
   * For every user type each role-dependent control ends up either required or wiped, never
   * both, and a wiped control carries no validator.
   */
  lemma RequiredOrWiped(kind: Kind, name: Field)
    requires Conditional(name)
    ensures (Required in RulesFor(kind, name)) != WipedFor(kind, name)
    ensures WipedFor(kind, name) ==> RulesFor(kind, name) == []
  {
  }

  /** The six role-dependent controls are present. */
  predicate HasConditional(controls: map<Field, Control>) {
    FullName in controls && Name in controls && Nif in controls && Cif in controls && Location in controls
    && SocietyId in controls
  }

  /** `set(name, validators)` on a present control: its validators are replaced, its value kept. */
  function SetRulesIn(controls: map<Field, Control>, name: Field, rules: seq<Rule>): map<Field, Control>
    requires name in controls
  {
    controls[name := controls[name].(rules := rules)]
  }

  /** `wipe(name)` on a present control: its value is reset to the empty string, its validators kept. */
  function WipeIn(controls: map<Field, Control>, name: Field): map<Field, Control>
    requires name in controls
  {
    controls[name := controls[name].(value := "")]
  }

  /** The first step of applyRegisterValidators: `clear` on the six role-dependent controls. */
  function Cleared(controls: map<Field, Control>): map<Field, Control>
    requires HasConditional(controls)
  {
    var c := SetRulesIn(SetRulesIn(SetRulesIn(controls, FullName, []), Name, []), Nif, []);
    SetRulesIn(SetRulesIn(SetRulesIn(c, Cif, []), Location, []), SocietyId, [])
  }

  /** The controls applyRegisterValidators leaves, step by step as the page takes them. */
  function Applied(kind: Kind, controls: map<Field, Control>): map<Field, Control>
    requires HasConditional(controls)
  {
    var c := Cleared(controls);
    if kind == CentreKind then CentreStep(c) else PersonStep(kind == TherapistKind, c)
  }

  /** The centre branch of applyRegisterValidators. */
  function CentreStep(controls: map<Field, Control>): map<Field, Control>
    requires HasConditional(controls)
  {
    var r := SetRulesIn(SetRulesIn(SetRulesIn(controls, Name, [Required, MinLength(2)]), Cif, [Required, MinLength(6)]),
                        Location, [Required, MinLength(5)]);
    WipeIn(WipeIn(WipeIn(r, FullName), Nif), SocietyId)
  }

  /** The patient and therapist branch of applyRegisterValidators. */
  function PersonStep(therapist: bool, controls: map<Field, Control>): map<Field, Control>
    requires HasConditional(controls)
  {
    var p := WipeIn(WipeIn(WipeIn(SetRulesIn(SetRulesIn(controls, FullName, [Required, MinLength(2)]), Nif, [Required, MinLength(6)]),
                                  Name), Cif), Location);
    if therapist then SetRulesIn(p, SocietyId, [Required, MinLength(3)]) else WipeIn(p, SocietyId)
  }

  /** initForms: every control empty with its fixed validators, the user type 'patient'. */
  function InitialControls(): map<Field, Control> {
    map n: Field :: InitialControl(n)
  }

  /** The control initForms creates for each field. */
  function InitialControl(name: Field): Control {
    match name
    case UserType => Control("patient", [Required])
    case Email => Control("", [Required])
    case Password => Control("", [Required, MinLength(6)])
    case ConfirmPassword => Control("", [Required])
    case _ => Control("", [])
  }

  /** Every control the form creates is present. */
  predicate Complete(controls: map<Field, Control>) {
    forall n: Field :: n in controls
  }

  /** `clear` on the six role-dependent controls of a complete form drops their validators and nothing else. */
  lemma ClearedShape(controls: map<Field, Control>)
    requires HasConditional(controls)
    ensures Cleared(controls).Keys == controls.Keys
    ensures forall n :: n in controls ==>
              Cleared(controls)[n] == if Conditional(n) then controls[n].(rules := []) else controls[n]
  {
  }

  /**
   * On a complete form, applyRegisterValidators keeps every control, leaves the ones that do
   * not depend on the role as they were, and leaves each role-dependent one with the rules of
   * the user type, its value wiped exactly when the type does not use it.
   */
  lemma AppliedShape(kind: Kind, controls: map<Field, Control>)
    requires HasConditional(controls)
    ensures Applied(kind, controls).Keys == controls.Keys
    ensures forall n :: n in controls && !Conditional(n) ==> Applied(kind, controls)[n] == controls[n]
    ensures forall n :: Conditional(n) ==> AppliedAt(kind, controls, Applied(kind, controls), n)
  {
    AppliedKeeps(kind, controls);
    if kind == CentreKind {
      CentreRequires(controls);
      CentreWipes(controls);
    } else {
      PersonRequires(kind, controls);
      PersonWipes(kind, controls);
      SocietyIdFor(kind, controls);
    }
  }

  /** applyRegisterValidators touches only the six role-dependent controls and adds or drops none. */
  lemma AppliedKeeps(kind: Kind, controls: map<Field, Control>)
    requires HasConditional(controls)
    ensures Applied(kind, controls).Keys == controls.Keys
    ensures forall n :: n in controls && !Conditional(n) ==> Applied(kind, controls)[n] == controls[n]
  {
    ClearedShape(controls);
  }

  /** For a centre, the name, CIF and location become required with their minimum lengths. */
  lemma CentreRequires(controls: map<Field, Control>)
    requires HasConditional(controls)
    ensures var a := Applied(CentreKind, controls);
            AppliedAt(CentreKind, controls, a, Name) && AppliedAt(CentreKind, controls, a, Cif)
            && AppliedAt(CentreKind, controls, a, Location)
  {
  }

  /** For a centre, the full name, NIF and society id are wiped and carry no validator. */
  lemma CentreWipes(controls: map<Field, Control>)
    requires HasConditional(controls)
    ensures var a := Applied(CentreKind, controls);
            AppliedAt(CentreKind, controls, a, FullName) && AppliedAt(CentreKind, controls, a, Nif)
            && AppliedAt(CentreKind, controls, a, SocietyId)
  {
  }

  /** For a patient or a therapist, the full name and NIF become required with their minimum lengths. */
  lemma PersonRequires(kind: Kind, controls: map<Field, Control>)
    requires kind != CentreKind && HasConditional(controls)
    ensures var a := Applied(kind, controls);
            AppliedAt(kind, controls, a, FullName) && AppliedAt(kind, controls, a, Nif)
  {
  }

  /** For a patient or a therapist, the centre's name, CIF and location are wiped and carry no validator. */
  lemma PersonWipes(kind: Kind, controls: map<Field, Control>)
    requires kind != CentreKind && HasConditional(controls)
    ensures var a := Applied(kind, controls);
            AppliedAt(kind, controls, a, Name) && AppliedAt(kind, controls, a, Cif) && AppliedAt(kind, controls, a, Location)
  {
  }

  /** A therapist's society id becomes required; a patient's is wiped. */
  lemma SocietyIdFor(kind: Kind, controls: map<Field, Control>)
    requires kind != CentreKind && HasConditional(controls)
    ensures AppliedAt(kind, controls, Applied(kind, controls), SocietyId)
  {
  }

  /**
   * initForms followed by applyRegisterValidators('patient'): every control is present, the
   * fixed ones keep their initial state, and the role-dependent ones are empty with the
   * patient's validators.
   */
  lemma InitialForm()
    ensures HasConditional(InitialControls())
    ensures var a := Applied(PatientKind, InitialControls());
            Complete(a)
            && forall n :: a[n] == if Conditional(n) then Control("", RulesFor(PatientKind, n)) else InitialControl(n)
  {
    var c := InitialControls();
    var a := Applied(PatientKind, c);
    AppliedShape(PatientKind, c);
    forall n ensures a[n] == if Conditional(n) then Control("", RulesFor(PatientKind, n)) else InitialControl(n) {
      if Conditional(n) {
        assert AppliedAt(PatientKind, c, a, n);
      } else {
        assert a[n] == c[n];
      }
    }
  }

  /** The register form: its controls by name, and the acceptTerms checkbox. */
  class RegisterForm {
    var controls: map<Field, Control>
    var acceptTerms: bool

    /** initForms: every control empty with its fixed validators, user type 'patient', then the patient rules. */
    constructor()
      ensures Complete(controls) && !acceptTerms
      ensures forall n :: controls[n] == if Conditional(n) then Control("", RulesFor(PatientKind, n)) else InitialControl(n)
    {
      controls := InitialControls();
      acceptTerms := false;
      new;
      InitialForm();
      ApplyRegisterValidators("patient");
    }

    /** `set(name, validators)` on the form: a missing control is skipped. */
    method SetRules(name: Field, rules: seq<Rule>)
      modifies this`controls
      ensures name in old(controls) ==> controls == SetRulesIn(old(controls), name, rules)
      ensures name !in old(controls) ==> controls == old(controls)
    {
      var c := if name in controls then Some(controls[name]) else None;
      if c.None? {
        return;
      }
      controls := controls[name := c.value.(rules := rules)];
    }

    /** `wipe(name)` on the form: a missing control is skipped. */
    method Wipe(name: Field)
      modifies this`controls
      ensures name in old(controls) ==> controls == WipeIn(old(controls), name)
      ensures name !in old(controls) ==> controls == old(controls)
    {
      var c := if name in controls then Some(controls[name]) else None;
      if c.None? {
        return;
      }
      controls := controls[name := c.value.(value := "")];
    }

    /**
     * applyRegisterValidators: clear the six role-dependent controls, then give each the rules
     * of the user type and wipe the ones the type does not use (AppliedShape).
     */
    method ApplyRegisterValidators(userType: string)
      modifies this`controls
      ensures HasConditional(old(controls)) ==> controls == Applied(KindOf(userType), old(controls))
    {
      ClearConditional();
      if userType == "centre" {
        ApplyCentre();
      } else {
        ApplyPerson(userType == "therapist");
      }
    }

    /** `clear` on the six role-dependent controls. */
    method ClearConditional()
      modifies this`controls
      ensures HasConditional(old(controls)) ==> controls == Cleared(old(controls)) && HasConditional(controls)
    {
      SetRules(FullName, []);
      SetRules(Name, []);
      SetRules(Nif, []);
      SetRules(Cif, []);
      SetRules(Location, []);
      SetRules(SocietyId, []);
    }

    /** The centre branch: require name, CIF and location, wipe full name, NIF and society id. */
    method ApplyCentre()
      modifies this`controls
      ensures HasConditional(old(controls)) ==> controls == CentreStep(old(controls))
    {
      SetRules(Name, [Required, MinLength(2)]);
      SetRules(Cif, [Required, MinLength(6)]);
      SetRules(Location, [Required, MinLength(5)]);
      Wipe(FullName);
      Wipe(Nif);
      Wipe(SocietyId);
    }

    /** The other branch: require full name and NIF, wipe the centre fields, then the society id by type. */
    method ApplyPerson(therapist: bool)
      modifies this`controls
      ensures HasConditional(old(controls)) ==> controls == PersonStep(therapist, old(controls))
    {
      SetRules(FullName, [Required, MinLength(2)]);
      SetRules(Nif, [Required, MinLength(6)]);
      Wipe(Name);
      Wipe(Cif);
      Wipe(Location);
      if therapist {
        SetRules(SocietyId, [Required, MinLength(3)]);
      } else {
        Wipe(SocietyId);
      }
    }
  }

  // ---------------------------------------------------------------------------
  // onRegister, onLogin
  // ---------------------------------------------------------------------------

  /** The register form passes validation: every control, the email format, the terms and the password match. */
  predicate RegisterFormValid(controls: map<Field, Control>, acceptTerms: bool, isEmail: string -> bool) {
    (forall n :: n in controls ==> ControlValid(controls[n]))
    && isEmail(Get(controls, Email)) && acceptTerms && !PasswordMismatch(controls)
  }

  /** The body onRegister sends: the common fields, then only the chosen role's fields. */
  function RegisterPayload(controls: map<Field, Control>): (b: AuthService.RegisterBody)
    ensures b.email == Some(NormalizeEmail(Some(Get(controls, Email))))
    ensures b.password == Some(Get(controls, Password))
    ensures b.role == Some(MapRole(Get(controls, UserType)))
    ensures b.phone == OrNull(Some(Get(controls, Phone)))
    ensures b.role == Some(CENTRE) <==>
              b.cif.Some? && b.name.Some? && b.location.Some?
    ensures b.role == Some(CENTRE) ==>
              b.cif == Some(Get(controls, Cif)) && b.name == Some(Get(controls, Name))
              && b.location == Some(Get(controls, Location)) && b.fullName.None? && b.nif.None?
    ensures b.role != Some(CENTRE) ==>
              b.fullName == Some(Get(controls, FullName)) && b.nif == Some(Get(controls, Nif))
    ensures b.diagnosis.Some? ==> b.role == Some(PATIENT)
    ensures b.societyId.Some? || b.profession.Some? ==> b.role == Some(THERAPIST)
    ensures b.Phone.None? && b.CIF.None? && b.centreName.None? && b.Location.None?
  {
    var role := MapRole(Get(controls, UserType));
    var person := role != CENTRE;
    AuthService.RegisterBody(
      Some(NormalizeEmail(Some(Get(controls, Email)))), Some(Get(controls, Password)), Some(role),
      if person then Some(Get(controls, FullName)) else None,
      if person then Some(Get(controls, Nif)) else None,
      if role == PATIENT then OrNull(Some(Get(controls, Diagnosis))) else None,
      if role == THERAPIST then OrNull(Some(Get(controls, SocietyId))) else None,
      if role == THERAPIST then OrNull(Some(Get(controls, Profession))) else None,
      OrNull(Some(Get(controls, Phone))), None,
      if person then None else Some(Get(controls, Cif)), None,
      if person then None else Some(Get(controls, Name)), None,
      if person then None else Some(Get(controls, Location)), None)
  }

  /** onRegister: an invalid form sends nothing (the page shows an alert); a valid one sends RegisterPayload. */
  function OnRegister(controls: map<Field, Control>, acceptTerms: bool, isEmail: string -> bool): (r: Option<AuthService.RegisterBody>)
    ensures r.Some? <==> RegisterFormValid(controls, acceptTerms, isEmail)
    ensures r.Some? ==> r.value == RegisterPayload(controls)
  {
    if RegisterFormValid(controls, acceptTerms, isEmail) then Some(RegisterPayload(controls)) else None
  }

  /** What onRegister sends as the password is the confirmation the user typed; a mismatch sends nothing. */
  lemma SentPasswordIsConfirmed(controls: map<Field, Control>, acceptTerms: bool, isEmail: string -> bool)
    ensures PasswordMismatch(controls) ==> OnRegister(controls, acceptTerms, isEmail).None?
    ensures OnRegister(controls, acceptTerms, isEmail).Some? ==>
              OnRegister(controls, acceptTerms, isEmail).value.password == Some(Get(controls, ConfirmPassword))
  {
  }

  /** A required control holding a value of at least `n` characters. */
  lemma RequiredMinLength(controls: map<Field, Control>, name: Field, n: nat)
    requires name in controls && ControlValid(controls[name])
    requires Required in controls[name].rules && MinLength(n) in controls[name].rules
    ensures Get(controls, name) != "" && |Get(controls, name)| >= n
  {
    var i :| 0 <= i < |controls[name].rules| && controls[name].rules[i] == Required;
    var j :| 0 <= j < |controls[name].rules| && controls[name].rules[j] == MinLength(n);
    assert Satisfies(controls[name].value, controls[name].rules[i]);
    assert Satisfies(controls[name].value, controls[name].rules[j]);
  }

  /**
   * A registration body with a non-blank email, a password of at least six characters, a
   * public role and that role's required fields passes every 400 check of the backend's
   * registration: it can only be refused with 409 (email, NIF or CIF taken).
   */
  lemma CompleteBodyOnlyConflicts(s: Schema.Store, b: AuthService.RegisterBody)
    requires NormalizeEmail(b.email) != "" && |OrElse(b.password, "")| >= 6
    requires b.role.Some? && AuthService.PublicRole(b.role.value)
    requires b.role.value == CENTRE ==>
               Truthy(AuthService.CentreCif(b)) && Truthy(AuthService.CentreName(b)) && Truthy(AuthService.CentreLocation(b))
    requires b.role.value != CENTRE ==> Truthy(b.fullName) && Truthy(b.nif)
    ensures var e := AuthService.RegisterError(s, b);
            e.Some? ==> e.value.status == Conflict
  {
    assert AuthService.NormalizeRole(b.role) == b.role.value;
  }

  /** A valid password control with the page's validators puts at least six characters in the body. */
  lemma PayloadPassword(controls: map<Field, Control>)
    requires Password in controls && ControlValid(controls[Password])
    requires controls[Password].rules == [Required, MinLength(6)]
    ensures |OrElse(RegisterPayload(controls).password, "")| >= 6
  {
    RequiredMinLength(controls, Password, 6);
  }

  /** With the centre's validators passed, the body carries a CIF, a name and a location. */
  lemma PayloadCentreFields(controls: map<Field, Control>)
    requires Get(controls, UserType) == "centre"
    requires Cif in controls && ControlValid(controls[Cif]) && controls[Cif].rules == RulesFor(CentreKind, Cif)
    requires Name in controls && ControlValid(controls[Name]) && controls[Name].rules == RulesFor(CentreKind, Name)
    requires Location in controls && ControlValid(controls[Location])
             && controls[Location].rules == RulesFor(CentreKind, Location)
    ensures var b := RegisterPayload(controls);
            Truthy(AuthService.CentreCif(b)) && Truthy(AuthService.CentreName(b)) && Truthy(AuthService.CentreLocation(b))
  {
    RequiredMinLength(controls, Cif, 6);
    RequiredMinLength(controls, Name, 2);
    RequiredMinLength(controls, Location, 5);
  }

  /** With a patient's or therapist's validators passed, the body carries a full name and a NIF. */
  lemma PayloadPersonFields(controls: map<Field, Control>)
    requires Get(controls, UserType) != "centre"
    requires FullName in controls && ControlValid(controls[FullName])
             && controls[FullName].rules == RulesFor(KindOf(Get(controls, UserType)), FullName)
    requires Nif in controls && ControlValid(controls[Nif]) && controls[Nif].rules == RulesFor(KindOf(Get(controls, UserType)), Nif)
    ensures var b := RegisterPayload(controls);
            Truthy(b.fullName) && Truthy(b.nif)
  {
    RequiredMinLength(controls, FullName, 2);
    RequiredMinLength(controls, Nif, 6);
  }

  /**
   * A register body the page sends, from a form whose role-dependent validators are those of
   * its current user type, passes every 400 check of the backend's registration except the
   * blank-email one: the backend can only answer 409 (email, NIF or CIF taken) or accept.
   */
  lemma AcceptedFormPassesRegisterChecks(s: Schema.Store, controls: map<Field, Control>, acceptTerms: bool, isEmail: string -> bool)
    requires OnRegister(controls, acceptTerms, isEmail).Some?
    requires Password in controls && controls[Password].rules == [Required, MinLength(6)]
    requires forall n :: Conditional(n) ==> n in controls && controls[n].rules == RulesFor(KindOf(Get(controls, UserType)), n)
    requires NormalizeEmail(Some(Get(controls, Email))) != ""
    ensures var e := AuthService.RegisterError(s, RegisterPayload(controls));
            e.Some? ==> e.value.status == Conflict
  {
    var b := RegisterPayload(controls);
    var t := Get(controls, UserType);
    assert forall n :: n in controls ==> ControlValid(controls[n]);
    NormalizeEmailIdempotent(Some(Get(controls, Email)));
    PayloadPassword(controls);
    if t == "centre" {
      PayloadCentreFields(controls);
    } else {
      PayloadPersonFields(controls);
    }
    CompleteBodyOnlyConflicts(s, b);
  }

  /** onLogin: the login form needs an email of the right format and a password. */
  function OnLogin(email: string, password: string, isEmail: string -> bool): (r: Option<AuthService.LoginBody>)
    ensures r.Some? <==> email != "" && isEmail(email) && password != ""
    ensures r.Some? ==> r.value.email == Some(NormalizeEmail(Some(email))) && r.value.password == Some(password)
  {
    if email != "" && isEmail(email) && password != "" then
      Some(AuthService.LoginBody(Some(NormalizeEmail(Some(email))), Some(password)))
    else None
  }

  /** The backend's normalisation of the login email the page sends is a no-op. */
  lemma LoginEmailIsNormal(email: string, password: string, isEmail: string -> bool)
    requires OnLogin(email, password, isEmail).Some?
    ensures var b := OnLogin(email, password, isEmail).value;
            NormalizeEmail(b.email) == b.email.value && OrElse(b.password, "") == password
  {
    NormalizeEmailIdempotent(Some(email));
  }
}
