/**
 * The user form of the administration panel (`src/components/auth/UserForm.tsx`):
 * the validation schema with its cross-field refinement, the default values,
 * which fields are shown, and the description of the selected role.
 */
module UserForm {
  import opened Wrappers
  import Users

  /**
   * The fields as the form holds them before validation. `role` is `None`
   * when no role is selected; `password` is `None` when the field is undefined.
   */
  datatype FormInput = FormInput(
    name: string,
    email: string,
    role: Option<string>,
    isActive: bool,
    sendInvite: bool,
    password: Option<string>)

  /** The values the schema hands to `onSubmit`. */
  datatype FormValues = FormValues(
    name: string,
    email: string,
    role: Users.AdminRole,
    isActive: bool,
    sendInvite: bool,
    password: Option<string>)

  datatype Field = NameField | EmailField | RoleField | PasswordField

  /** One reason the schema rejects the form. */
  datatype Issue = NameTooShort | EmailInvalid | RoleMissing | RoleNotAllowed | PasswordLength | PasswordRequired

  /** The field an issue is reported on. */
  function FieldOf(i: Issue): Field {
    match i
    case NameTooShort => NameField
    case EmailInvalid => EmailField
    case RoleMissing => RoleField
    case RoleNotAllowed => RoleField
    case PasswordLength => PasswordField
    case PasswordRequired => PasswordField
  }

  /**
   * A string's JavaScript `length`: the number of UTF-16 code units, two for
   * each character at or above U+10000. The length rules count these units.
   */
  function Utf16Length(s: string): (n: nat)
    ensures |s| <= n <= 2 * |s|
    ensures n == 0 <==> s == []
  {
    if s == [] then 0 else (if s[0] as int >= 0x1_0000 then 2 else 1) + Utf16Length(s[1..])
  }

  /** A single character outside the Basic Multilingual Plane already has length 2, so it is a long enough name. */
  lemma AstralCharCountsTwice(c: char)
    requires c as int >= 0x1_0000
    ensures Utf16Length([c]) == 2
  {
    assert [c][1..] == [];
  }

  /**
   * The e-mail rule, approximated: an '@' with at least one character on each
   * side. Every address the form accepts has this shape (see README).
   */
  predicate EmailPlausible(e: string) {
    |e| >= 3 && '@' in e[1..|e| - 1]
  }

  /** `z.enum(['admin', 'manager', 'authorizer', 'operator'])`. */
  function ParseRole(s: string): (r: Option<Users.AdminRole>)
    ensures r.Some? <==> s in {"admin", "manager", "authorizer", "operator"}
    ensures r.Some? ==> Users.RoleName(r.value) == s
  {
    if s == "admin" then Some(Users.Admin)
    else if s == "manager" then Some(Users.Manager)
    else if s == "authorizer" then Some(Users.Authorizer)
    else if s == "operator" then Some(Users.Operator)
    else None
  }

  /** Parsing the name of a role gives back that role. */
  lemma ParseRoleName(r: Users.AdminRole)
    ensures ParseRole(Users.RoleName(r)) == Some(r)
  {
  }

  /** The password union: absent, exactly empty, or at least 8 UTF-16 units. */
  predicate PasswordShapeOk(p: Option<string>) {
    p.None? || Utf16Length(p.value) == 0 || Utf16Length(p.value) >= 8
  }

  /** The `.transform`: an empty password becomes undefined. */
  function NormalizePassword(p: Option<string>): Option<string> {
    if p == Some("") then None else p
  }

  /** The `.refine`: without an e-mail invitation a password must be given. */
  predicate Refinement(sendInvite: bool, password: Option<string>) {
    !(!sendInvite && password.None?)
  }

  /** The per-field rules, in the schema's field order. */
  function FieldIssues(input: FormInput): seq<Issue> {
    (if Utf16Length(input.name) < 2 then [NameTooShort] else []) +
    (if !EmailPlausible(input.email) then [EmailInvalid] else []) +
    (if input.role.None? then [RoleMissing]
     else if ParseRole(input.role.value).None? then [RoleNotAllowed]
     else []) +
    (if !PasswordShapeOk(input.password) then [PasswordLength] else [])
  }

  /** The whole schema: the field rules, then the refinement on the parsed values. */
  function Validate(input: FormInput): (r: Result<FormValues, seq<Issue>>)
    ensures r.Ok? <==>
              Utf16Length(input.name) >= 2 && EmailPlausible(input.email) && input.role.Some? &&
              input.role.value in {"admin", "manager", "authorizer", "operator"} &&
              PasswordShapeOk(input.password) &&
              (input.sendInvite || NormalizePassword(input.password).Some?)
    ensures r.Ok? ==>
              r.value.name == input.name && r.value.email == input.email &&
              input.role == Some(Users.RoleName(r.value.role)) &&
              r.value.isActive == input.isActive && r.value.sendInvite == input.sendInvite &&
              r.value.password == NormalizePassword(input.password)
    ensures r.Err? && FieldIssues(input) == [] ==> r.error == [PasswordRequired]
    ensures r.Err? ==> r.error != []
  {
    var issues := FieldIssues(input);
    if issues != [] then Err(issues)
    else
      var values := FormValues(input.name, input.email, ParseRole(input.role.value).value,
                               input.isActive, input.sendInvite, NormalizePassword(input.password));
      if Refinement(values.sendInvite, values.password) then Ok(values) else Err([PasswordRequired])
  }

  /** A password is accepted iff it is empty or has at least 8 UTF-16 units, and the empty one is dropped. */
  lemma PasswordRule(p: string)
    ensures PasswordShapeOk(Some(p)) <==> p == "" || Utf16Length(p) >= 8
    ensures NormalizePassword(Some(p)).None? <==> p == ""
  {
  }

  /** With valid fields, the form is rejected, on the password field, iff there is no invitation and no password. */
  lemma RefinementDecides(input: FormInput)
    requires FieldIssues(input) == []
    ensures Validate(input).Err? <==> !input.sendInvite && NormalizePassword(input.password).None?
    ensures Validate(input).Err? ==> forall i :: i in Validate(input).error ==> FieldOf(i) == PasswordField
  {
  }

  /** `defaultValues`: empty fields and the operator role for a new user, the user's own fields when editing. */
  function Defaults(user: Option<Users.User>): (d: FormInput)
    ensures d.sendInvite && d.password == Some("")
    ensures user.None? ==> d == FormInput("", "", Some("operator"), true, true, Some(""))
    ensures user.Some? ==> d.name == user.value.name && d.email == user.value.email &&
                           d.role == Some(Users.RoleName(user.value.role)) && d.isActive == user.value.isActive
  {
    FormInput(
      if user.Some? && user.value.name != "" then user.value.name else "",
      if user.Some? && user.value.email != "" then user.value.email else "",
      Some(if user.Some? then Users.RoleName(user.value.role) else "operator"),
      if user.Some? then user.value.isActive else true,
      true,
      Some(""))
  }

  /** Submitting a new user's defaults untouched fails on the empty name and the empty e-mail, and on nothing else. */
  lemma NewUserDefaultsRejected()
    ensures Validate(Defaults(None)) == Err([NameTooShort, EmailInvalid])
  {
    assert FieldIssues(Defaults(None)) == [NameTooShort, EmailInvalid];
  }

  /** Saving an edited user's defaults with the password left blank passes, and the password stays undefined. */
  lemma EditDefaultsPass(u: Users.User)
    requires Utf16Length(u.name) >= 2 && EmailPlausible(u.email)
    ensures Validate(Defaults(Some(u))) == Ok(FormValues(u.name, u.email, u.role, u.isActive, true, None))
  {
    ParseRoleName(u.role);
    assert FieldIssues(Defaults(Some(u))) == [];
  }

  /**
   * The invitation switch is shown only when creating a user; when it is
   * hidden the password field is shown, so an edited user can always type one.
   */
  function ShowSendInvite(editing: bool): (shown: bool)
    ensures shown <==> !editing
    ensures !shown ==> forall sendInvite :: ShowPassword(sendInvite, editing)
  {
    !editing
  }

  /**
   * The password field is shown when no invitation is sent, or when editing;
   * whenever it is hidden, leaving it blank satisfies the refinement.
   */
  function ShowPassword(sendInvite: bool, editing: bool): (shown: bool)
    ensures shown <==> !sendInvite || editing
    ensures !shown ==> Refinement(sendInvite, None)
  {
    !sendInvite || editing
  }

  /**
   * Whenever the password field is hidden, or the invitation switch is hidden
   * and so keeps its default, the refinement cannot fail.
   */
  lemma HiddenFieldsNeverRequirePassword(input: FormInput, editing: bool)
    requires !ShowPassword(input.sendInvite, editing) || (!ShowSendInvite(editing) && input.sendInvite == Defaults(None).sendInvite)
    requires FieldIssues(input) == []
    ensures Validate(input).Ok?
  {
  }

  /** The description under the role selector, one text per role and none for anything else. */
  function RoleDescription(roleName: string): (d: Option<string>)
    ensures d.Some? <==> ParseRole(roleName).Some?
  {
    if roleName == "admin" then Some("Acesso total ao sistema.")
    else if roleName == "manager" then Some("Acesso gerencial e de aprovação.")
    else if roleName == "authorizer" then Some("Pode aprovar/rejeitar solicitações.")
    else if roleName == "operator" then Some("Acesso básico ao sistema.")
    else None
  }

  /** Different roles are described differently. */
  lemma RoleDescriptionDistinguishesRoles(r1: Users.AdminRole, r2: Users.AdminRole)
    requires r1 != r2
    ensures RoleDescription(Users.RoleName(r1)) != RoleDescription(Users.RoleName(r2))
  {
  }
}
