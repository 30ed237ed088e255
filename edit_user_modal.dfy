/**
 * The admin's user dialog (`components/modals/EditUserModal.tsx`): the form
 * schema with its password confirmation, the defaults, the values loaded
 * from a user, and the submit sequence.
 */
module EditUserModal {
  import opened Wrappers
  import opened Types

  /**
   * The form's values. Every field has a default, so none is ever missing;
   * what the schema lets through is the same record.
   */
  datatype UserFormValues = UserFormValues(
    fullName: string,
    email: string,
    phone: string,
    username: string,
    password: string,
    confirmPassword: string,
    role: string,
    gender: string,
    age: int,
    birthday: string,
    twoFactorEnabled: bool,
    address: string)

  /** `defaultValues`: empty texts, the client role, age 18 and two-factor off. */
  const Defaults := UserFormValues("", "", "", "", "", "", "client", "", 18, "", false, "")

  /** The issue a failing field reports, or none. */
  function Issue(failed: bool, field: string): (r: set<string>)
    ensures failed ==> r == {field}
    ensures !failed ==> r == {}
  {
    if failed then {field} else {}
  }

  /** The rules on who the user is: name, e-mail, phone and user name. */
  function IdentityIssues(v: UserFormValues, isEmail: string -> bool): (issues: set<string>)
    ensures "fullName" in issues <==> |v.fullName| < 2
    ensures "email" in issues <==> !isEmail(v.email)
    ensures "phone" in issues <==> |v.phone| < 9
    ensures "username" in issues <==> |v.username| < 3
    ensures issues <= {"fullName", "email", "phone", "username"}
  {
    Issue(|v.fullName| < 2, "fullName") + Issue(!isEmail(v.email), "email")
    + Issue(|v.phone| < 9, "phone") + Issue(|v.username| < 3, "username")
  }

  /** The remaining rules: password length, role, gender, age and birthday. */
  function ProfileIssues(v: UserFormValues): (issues: set<string>)
    ensures "password" in issues <==> |v.password| < 6
    ensures "role" in issues <==> ParseUserRole(v.role).None?
    ensures "gender" in issues <==> v.gender == ""
    ensures "age" in issues <==> !(18 <= v.age <= 100)
    ensures "birthday" in issues <==> v.birthday == ""
    ensures issues <= {"password", "role", "gender", "age", "birthday"}
  {
    Issue(|v.password| < 6, "password") + Issue(ParseUserRole(v.role).None?, "role")
    + Issue(v.gender == "", "gender") + Issue(!(18 <= v.age <= 100), "age")
    + Issue(v.birthday == "", "birthday")
  }

  /** The per-field rules of `userFormSchema`; `isEmail` is zod's e-mail check. */
  function FieldIssues(v: UserFormValues, isEmail: string -> bool): (issues: set<string>)
    ensures issues == {} <==>
      |v.fullName| >= 2 && isEmail(v.email) && |v.phone| >= 9 && |v.username| >= 3 && |v.password| >= 6
      && ParseUserRole(v.role).Some? && v.gender != "" && 18 <= v.age <= 100 && v.birthday != ""
    ensures "confirmPassword" !in issues
  {
    var a := IdentityIssues(v, isEmail);
    var b := ProfileIssues(v);
    assert a + b == {} <==> a == {} && b == {};
    a + b
  }

  /**
   * Whether the object-level check reports the two passwords as different.
   * zod runs that check after a field fails its length, e-mail or range
   * rule, but not after the role fails its enum: a value outside the enum
   * aborts the object, so its refinement never sees it.
   */
  function MismatchIssue(v: UserFormValues): (r: set<string>)
    ensures "confirmPassword" in r <==> v.password != v.confirmPassword && ParseUserRole(v.role).Some?
    ensures r <= {"confirmPassword"}
  {
    Issue(v.password != v.confirmPassword && ParseUserRole(v.role).Some?, "confirmPassword")
  }

  /**
   * `userFormSchema.parse`: every field rule that fails reports its field,
   * and the password confirmation reports `confirmPassword` beside them
   * unless the role is outside the enum.
   */
  function ParseUserForm(v: UserFormValues, isEmail: string -> bool): (r: Result<UserFormValues, set<string>>)
    ensures r.Ok? <==> FieldIssues(v, isEmail) == {} && v.password == v.confirmPassword
    ensures r.Ok? ==> r.value == v
    ensures r.Err? ==> r.error - {"confirmPassword"} == FieldIssues(v, isEmail)
    ensures r.Err? ==> ("confirmPassword" in r.error <==> v.password != v.confirmPassword && ParseUserRole(v.role).Some?)
  {
    var issues := FieldIssues(v, isEmail) + MismatchIssue(v);
    if issues == {} then Ok(v) else Err(issues)
  }

  /**
   * Different passwords are always refused, and the mismatch is reported
   * together with every failing field; only a role outside the enum hides it.
   */
  lemma OnlyInvalidRoleHidesMismatch(v: UserFormValues, isEmail: string -> bool)
    requires v.password != v.confirmPassword
    ensures ParseUserForm(v, isEmail).Err?
    ensures FieldIssues(v, isEmail) <= ParseUserForm(v, isEmail).error
    ensures "confirmPassword" !in ParseUserForm(v, isEmail).error <==> ParseUserRole(v.role).None?
  {
  }

  /** A blank form with two different six-letter passwords reports the mismatch and the blank fields at once. */
  lemma MismatchReportedWithBlankFields(isEmail: string -> bool)
    ensures var v := Defaults.(password := "abcdef", confirmPassword := "abcdeg");
      {"fullName", "phone", "username", "gender", "birthday", "confirmPassword"} <= ParseUserForm(v, isEmail).error
      && "password" !in ParseUserForm(v, isEmail).error
  {
    var v := Defaults.(password := "abcdef", confirmPassword := "abcdeg");
    assert v.password[5] != v.confirmPassword[5];
  }

  /** The empty default form is refused; among other things it has no password. */
  lemma DefaultsRefused(isEmail: string -> bool)
    ensures ParseUserForm(Defaults, isEmail).Err?
    ensures {"fullName", "phone", "username", "password", "gender", "birthday"} <= ParseUserForm(Defaults, isEmail).error
    ensures "role" !in ParseUserForm(Defaults, isEmail).error && "age" !in ParseUserForm(Defaults, isEmail).error
  {
  }

  /** The form as the effect leaves it after loading a user: both password boxes empty. */
  function LoadedValues(u: User): UserFormValues
  {
    UserFormValues(u.fullName, u.email, u.phone, u.username, "", "", UserRoleName(u.role),
      u.gender, u.age, u.birthday, u.twoFactorEnabled, if u.address.Some? then u.address.value else "")
  }

  /** A user's stored details pass the field rules other than the password. */
  predicate DetailsValid(u: User, isEmail: string -> bool)
  {
    |u.fullName| >= 2 && isEmail(u.email) && |u.phone| >= 9 && |u.username| >= 3
    && u.gender != "" && 18 <= u.age <= 100 && u.birthday != ""
  }

  /**
   * Editing a user cannot be saved as loaded: the password boxes are cleared,
   * so a password of at least six characters must be typed again.
   */
  lemma LoadedFormNeedsPassword(u: User, isEmail: string -> bool)
    ensures ParseUserForm(LoadedValues(u), isEmail).Err?
    ensures "password" in ParseUserForm(LoadedValues(u), isEmail).error
    ensures "role" !in ParseUserForm(LoadedValues(u), isEmail).error
  {
  }

  /** Typing the same new password of six or more characters twice is then enough, for valid details. */
  lemma NewPasswordSaves(u: User, isEmail: string -> bool, p: string)
    requires DetailsValid(u, isEmail) && |p| >= 6
    ensures var v := LoadedValues(u).(password := p, confirmPassword := p);
      ParseUserForm(v, isEmail) == Ok(v)
  {
    var v := LoadedValues(u).(password := p, confirmPassword := p);
    assert FieldIssues(v, isEmail) == {};
  }

  /** The dialog's form values and its submitting flag. */
  class EditUserDialog {
    var values: UserFormValues
    var isSubmitting: bool

    constructor ()
      ensures values == Defaults && !isSubmitting
    {
      values := Defaults;
      isSubmitting := false;
    }

    /**
     * The effect on `user`: each of the user's fields is set in turn and the
     * two password boxes are cleared; without a user the form is reset.
     */
    method Load(user: Option<User>)
      modifies this
      ensures user.Some? ==> values == LoadedValues(user.value)
      ensures user.None? ==> values == Defaults
      ensures isSubmitting == old(isSubmitting)
    {
      if user.Some? {
        var u := user.value;
        values := values.(fullName := u.fullName);
        values := values.(email := u.email);
        values := values.(phone := u.phone);
        values := values.(username := u.username);
        values := values.(role := UserRoleName(u.role));
        values := values.(gender := u.gender);
        values := values.(age := u.age);
        values := values.(birthday := u.birthday);
        values := values.(twoFactorEnabled := u.twoFactorEnabled);
        values := values.(address := if u.address.Some? then u.address.value else "");
        values := values.(password := "");
        values := values.(confirmPassword := "");
      } else {
        values := Defaults;
      }
    }

    /**
     * `handleSubmit(onSubmit)`: only a form the schema accepts reaches
     * `onSave`, with the parsed values, and the dialog then asks to close.
     * The submitting flag is false after a save and untouched otherwise.
     */
    method Submit(isEmail: string -> bool) returns (saved: Option<UserFormValues>, close: bool)
      modifies this
      ensures saved.Some? <==> ParseUserForm(old(values), isEmail).Ok?
      ensures saved.Some? ==> saved.value == old(values)
      ensures close <==> saved.Some?
      ensures saved.Some? ==> !isSubmitting
      ensures saved.None? ==> isSubmitting == old(isSubmitting)
      ensures values == old(values)
    {
      match ParseUserForm(values, isEmail)
      case Err(_) =>
        saved, close := None, false;
      case Ok(data) =>
        isSubmitting := true;
        saved, close := Some(data), true;
        isSubmitting := false;
    }
  }
}
