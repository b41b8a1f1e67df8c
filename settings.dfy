/**
 * The company-settings page (src/pages/Settings.tsx): loading the caller's
 * profile into the form, validating the form against the schema, and saving
 * the trimmed values with empty ones stored as null.
 */
module Settings {
  import opened Wrappers
  import opened Types
  import opened Strings
  import opened Toasts
  import Lists

  /** The four fields of `companySettingsSchema`. */
  datatype CompanyField = CompanyName | CompanyAddress | LicenseNumber | IicrcCertificationNumber

  /** The schema's keys in declaration order, which is the order its issues are reported in. */
  const SchemaFields: seq<CompanyField> := [CompanyName, CompanyAddress, LicenseNumber, IicrcCertificationNumber]

  /** The `max` of each field, counted in UTF-16 code units after trimming. */
  function MaxLength(f: CompanyField): nat {
    match f
    case CompanyName => 200
    case CompanyAddress => 500
    case LicenseNumber => 100
    case IicrcCertificationNumber => 100
  }

  function TooLongMessage(f: CompanyField): string {
    match f
    case CompanyName => "Company name too long"
    case CompanyAddress => "Address too long"
    case LicenseNumber => "License number too long"
    case IicrcCertificationNumber => "Certification number too long"
  }

  /** The form state `profile`. */
  datatype CompanyForm = CompanyForm(
    companyName: string,
    companyAddress: string,
    licenseNumber: string,
    iicrcCertificationNumber: string)

  const EmptyForm := CompanyForm("", "", "", "")

  function FormValue(form: CompanyForm, f: CompanyField): string {
    match f
    case CompanyName => form.companyName
    case CompanyAddress => form.companyAddress
    case LicenseNumber => form.licenseNumber
    case IicrcCertificationNumber => form.iicrcCertificationNumber
  }

  /** The object the schema reads or produces: each key undefined or a string. */
  datatype CompanySettings = CompanySettings(
    companyName: Option<string>,
    companyAddress: Option<string>,
    licenseNumber: Option<string>,
    iicrcCertificationNumber: Option<string>)

  function SettingsValue(v: CompanySettings, f: CompanyField): Option<string> {
    match f
    case CompanyName => v.companyName
    case CompanyAddress => v.companyAddress
    case LicenseNumber => v.licenseNumber
    case IicrcCertificationNumber => v.iicrcCertificationNumber
  }

  /** `value || undefined`. */
  function UndefinedIfEmpty(s: string): (r: Option<string>)
    ensures r.None? <==> s == ""
    ensures r.Some? ==> r.value == s
  {
    if s == "" then None else Some(s)
  }

  /** The object handed to `safeParse`: empty fields become undefined. */
  function SchemaInput(form: CompanyForm): CompanySettings {
    CompanySettings(
      UndefinedIfEmpty(form.companyName),
      UndefinedIfEmpty(form.companyAddress),
      UndefinedIfEmpty(form.licenseNumber),
      UndefinedIfEmpty(form.iicrcCertificationNumber))
  }

  /** `z.string().trim().max(n).optional()` on one value: undefined passes, a string is trimmed then measured. */
  function CheckField(f: CompanyField, v: Option<string>): Result<Option<string>, string> {
    match v
    case None => Ok(None)
    case Some(s) =>
      if Utf16Length(Trim(s)) > MaxLength(f) then Err(TooLongMessage(f)) else Ok(Some(Trim(s)))
  }

  /** The issues of the fields `fields` of `input`, in order. */
  function Issues(input: CompanySettings, fields: seq<CompanyField>): seq<string>
    decreases |fields|
  {
    if fields == [] then []
    else
      (match CheckField(fields[0], SettingsValue(input, fields[0])) case Err(m) => [m] case Ok(_) => [])
      + Issues(input, fields[1..])
  }

  /** The trimmed value of every key that is present. */
  function TrimmedSettings(input: CompanySettings): CompanySettings {
    CompanySettings(
      TrimIfPresent(input.companyName),
      TrimIfPresent(input.companyAddress),
      TrimIfPresent(input.licenseNumber),
      TrimIfPresent(input.iicrcCertificationNumber))
  }

  function TrimIfPresent(v: Option<string>): Option<string> {
    match v
    case None => None
    case Some(s) => Some(Trim(s))
  }

  datatype ParseResult = Parsed(data: CompanySettings) | Rejected(issues: seq<string>)

  /** `companySettingsSchema.safeParse(input)`. */
  function SafeParse(input: CompanySettings): ParseResult {
    var issues := Issues(input, SchemaFields);
    if issues == [] then Parsed(TrimmedSettings(input)) else Rejected(issues)
  }

  /** The update sent to `profiles`: the four parsed values with `|| null`. */
  function ProfilePatch(data: CompanySettings): ProfileUpdate {
    ProfileUpdate(
      companyAddress := Given(NullIfEmpty(data.companyAddress)),
      companyLogoUrl := Omitted,
      companyName := Given(NullIfEmpty(data.companyName)),
      createdAt := Omitted,
      email := Omitted,
      fullName := Omitted,
      id := Omitted,
      iicrcCertificationNumber := Given(NullIfEmpty(data.iicrcCertificationNumber)),
      licenseNumber := Given(NullIfEmpty(data.licenseNumber)))
  }

  function PatchValue(p: ProfileUpdate, f: CompanyField): Field<Option<string>> {
    match f
    case CompanyName => p.companyName
    case CompanyAddress => p.companyAddress
    case LicenseNumber => p.licenseNumber
    case IicrcCertificationNumber => p.iicrcCertificationNumber
  }

  /** What submitting `form` leads to: the update to send, or the one message shown. */
  function Submission(form: CompanyForm): Result<ProfileUpdate, string> {
    match SafeParse(SchemaInput(form))
    case Rejected(issues) => Err(issues[0])
    case Parsed(data) => Ok(ProfilePatch(data))
  }

  /** `data.x || ""` for each column: the form a loaded profile shows. */
  function LoadForm(row: ProfileRow): CompanyForm {
    CompanyForm(
      row.companyName.GetOr(""),
      row.companyAddress.GetOr(""),
      row.licenseNumber.GetOr(""),
      row.iicrcCertificationNumber.GetOr(""))
  }

  function RowValue(row: ProfileRow, f: CompanyField): Option<string> {
    match f
    case CompanyName => row.companyName
    case CompanyAddress => row.companyAddress
    case LicenseNumber => row.licenseNumber
    case IicrcCertificationNumber => row.iicrcCertificationNumber
  }

  // ---------------------------------------------------------------- properties

  /** Field `f` of `form` is too long for the schema. */
  predicate TooLong(form: CompanyForm, f: CompanyField) {
    Utf16Length(Trim(FormValue(form, f))) > MaxLength(f)
  }

  lemma InputValue(form: CompanyForm, f: CompanyField)
    ensures SettingsValue(SchemaInput(form), f) == UndefinedIfEmpty(FormValue(form, f))
  {
  }

  /** A key is rejected exactly when it is present and too long. */
  lemma CheckFieldIff(form: CompanyForm, f: CompanyField)
    ensures CheckField(f, SettingsValue(SchemaInput(form), f)).Err? <==> TooLong(form, f)
    ensures CheckField(f, SettingsValue(SchemaInput(form), f)).Err? ==>
              CheckField(f, SettingsValue(SchemaInput(form), f)).error == TooLongMessage(f)
  {
    InputValue(form, f);
    if FormValue(form, f) == "" {
      assert Trim("") == "";
    }
  }

  /** No issue among `fields` exactly when no field among them is too long. */
  lemma {:induction false} IssuesEmptyIff(form: CompanyForm, fields: seq<CompanyField>)
    ensures Issues(SchemaInput(form), fields) == [] <==> forall k :: 0 <= k < |fields| ==> !TooLong(form, fields[k])
    decreases |fields|
  {
    if fields != [] {
      CheckFieldIff(form, fields[0]);
      IssuesEmptyIff(form, fields[1..]);
      assert forall k :: 1 <= k < |fields| ==> fields[k] == fields[1..][k - 1];
    }
  }

  /** The issues of a non-empty field list: the first field's, if it is too long, then the rest's. */
  lemma IssuesHead(form: CompanyForm, fields: seq<CompanyField>)
    requires fields != []
    ensures Issues(SchemaInput(form), fields) ==
              (if TooLong(form, fields[0]) then [TooLongMessage(fields[0])] else []) + Issues(SchemaInput(form), fields[1..])
  {
    CheckFieldIff(form, fields[0]);
  }

  /** Fields that are not too long add no issue: skipping them leaves the same issues. */
  lemma {:induction false} IssuesSkipValid(form: CompanyForm, fields: seq<CompanyField>, i: nat, k: nat)
    requires i <= k <= |fields|
    requires forall j :: i <= j < k ==> !TooLong(form, fields[j])
    ensures Issues(SchemaInput(form), fields[i..]) == Issues(SchemaInput(form), fields[k..])
    decreases k - i
  {
    if i < k {
      IssuesHead(form, fields[i..]);
      assert fields[i..][0] == fields[i];
      assert fields[i..][1..] == fields[i + 1..];
      IssuesSkipValid(form, fields, i + 1, k);
    }
  }

  /** When the field at `k` is the first too-long one, its message is the first issue. */
  lemma IssuesStartAt(form: CompanyForm, fields: seq<CompanyField>, k: nat)
    requires k < |fields| && TooLong(form, fields[k])
    requires forall j :: 0 <= j < k ==> !TooLong(form, fields[j])
    ensures Issues(SchemaInput(form), fields) != []
    ensures Issues(SchemaInput(form), fields)[0] == TooLongMessage(fields[k])
  {
    IssuesSkipValid(form, fields, 0, k);
    assert fields[0..] == fields;
    IssuesHead(form, fields[k..]);
    assert fields[k..][0] == fields[k];
  }

  /** The first issue is the message of the first field, in schema order, that is too long. */
  lemma FirstIssue(form: CompanyForm, fields: seq<CompanyField>) returns (k: nat)
    requires Issues(SchemaInput(form), fields) != []
    ensures k < |fields| && TooLong(form, fields[k])
    ensures forall j :: 0 <= j < k ==> !TooLong(form, fields[j])
    ensures Issues(SchemaInput(form), fields)[0] == TooLongMessage(fields[k])
  {
    IssuesEmptyIff(form, fields);
    k := Lists.FirstWhere(fields, (f: CompanyField) => TooLong(form, f));
    IssuesStartAt(form, fields, k);
  }

  /** A form is rejected exactly when one of its fields, trimmed, is longer than its limit. */
  lemma RejectedIff(form: CompanyForm)
    ensures Submission(form).Err? <==> exists f :: TooLong(form, f)
  {
    IssuesEmptyIff(form, SchemaFields);
    if exists f :: TooLong(form, f) {
      var f :| TooLong(form, f);
      assert f == SchemaFields[0] || f == SchemaFields[1] || f == SchemaFields[2] || f == SchemaFields[3];
    }
  }

  /**
   * On rejection the one message shown is that of the first field, in
   * schema order, that is too long.
   */
  lemma OnlyFirstErrorShown(form: CompanyForm) returns (k: nat)
    requires Submission(form).Err?
    ensures k < |SchemaFields| && TooLong(form, SchemaFields[k])
    ensures forall j :: 0 <= j < k ==> !TooLong(form, SchemaFields[j])
    ensures Submission(form).error == TooLongMessage(SchemaFields[k])
  {
    k := FirstIssue(form, SchemaFields);
  }

  /** The empty form always validates, and every column is saved as null. */
  lemma EmptyFormSavesNulls(f: CompanyField)
    ensures Submission(EmptyForm).Ok?
    ensures PatchValue(Submission(EmptyForm).value, f) == Given(None)
  {
  }

  /**
   * An accepted form saves each field trimmed, within its limit, and as null
   * when it trims to the empty string; the patch touches no other column.
   */
  lemma SavedValuesTrimmed(form: CompanyForm, f: CompanyField)
    requires Submission(form).Ok?
    ensures var p := Submission(form).value;
      && PatchValue(p, f) == Given(if Trim(FormValue(form, f)) == "" then None else Some(Trim(FormValue(form, f))))
      && Utf16Length(Trim(FormValue(form, f))) <= MaxLength(f)
      && p.companyLogoUrl == Omitted && p.createdAt == Omitted && p.email == Omitted
      && p.fullName == Omitted && p.id == Omitted
  {
    RejectedIff(form);
    var v := FormValue(form, f);
    if v == "" {
      assert Trim(v) == "";
    }
  }

  /** A field the database holds as null is saved as null again after load-then-save. */
  lemma NullRoundTrips(row: ProfileRow, f: CompanyField)
    requires RowValue(row, f).None?
    requires Submission(LoadForm(row)).Ok?
    ensures PatchValue(Submission(LoadForm(row)).value, f) == Given(None)
  {
    SavedValuesTrimmed(LoadForm(row), f);
    assert FormValue(LoadForm(row), f) == "";
    assert Trim("") == "";
  }

  /**
   * Loading and saving a profile whose four columns are null or trimmed and
   * within their limits writes the same four values back, except that an
   * empty string becomes null.
   */
  lemma LoadSaveRoundTrip(row: ProfileRow, f: CompanyField)
    requires forall g :: RowValue(row, g).Some? ==>
               var v := RowValue(row, g).value; Trim(v) == v && Utf16Length(v) <= MaxLength(g)
    ensures Submission(LoadForm(row)).Ok?
    ensures PatchValue(Submission(LoadForm(row)).value, f) == Given(NullIfEmpty(RowValue(row, f)))
  {
    var form := LoadForm(row);
    forall g ensures !TooLong(form, g) {
      assert FormValue(form, g) == RowValue(row, g).GetOr("");
      if RowValue(row, g).None? { assert Trim("") == ""; }
    }
    RejectedIff(form);
    SavedValuesTrimmed(form, f);
    assert FormValue(form, f) == RowValue(row, f).GetOr("");
    if RowValue(row, f).None? { assert Trim("") == ""; }
  }

  // ---------------------------------------------------------------- the page state

  /** What the select of the caller's profile resolves to. */
  datatype ProfileSelect = ProfileErr(message: string) | ProfileOk(data: Option<ProfileRow>)

  class SettingsPage {
    var profile: CompanyForm
    var loading: bool
    var saving: bool

    constructor ()
      ensures profile == EmptyForm && loading && !saving
    {
      profile, loading, saving := EmptyForm, true, false;
    }

    /** `fetchProfile`: show the caller's profile in the form; loading ends either way. */
    method FetchProfile(user: Option<AuthUser>, select: string -> ProfileSelect) returns (toast: Option<Toast>)
      modifies this`profile, this`loading
      ensures !loading
      ensures user.None? ==> profile == old(profile) && toast == Some(ErrorToast(NotAuthenticatedMessage))
      ensures user.Some? && select(user.value.id).ProfileErr? ==>
                profile == old(profile) && toast == Some(ErrorToast(select(user.value.id).message))
      ensures user.Some? && select(user.value.id).ProfileOk? ==>
                toast.None?
                && profile == match select(user.value.id).data
                              case Some(row) => LoadForm(row)
                              case None => old(profile)
    {
      toast := None;
      if user.None? {
        toast := Some(ErrorToast(NotAuthenticatedMessage));
      } else {
        match select(user.value.id)
        case ProfileErr(m) =>
          toast := Some(ErrorToast(m));
        case ProfileOk(data) =>
          if data.Some? {
            profile := LoadForm(data.value);
          }
      }
      loading := false;
    }

    /**
     * `handleSubmit`: with no user or an invalid form nothing is sent; otherwise
     * one update is sent for the row whose id is the caller's. `saving` is
     * false when it returns, whatever happened.
     */
    method HandleSubmit(user: Option<AuthUser>, update: (string, ProfileUpdate) -> Option<string>)
      returns (sent: Option<(string, ProfileUpdate)>, toast: Toast)
      modifies this`saving
      ensures !saving
      ensures user.None? ==> sent.None? && toast == ErrorToast(NotAuthenticatedMessage)
      ensures user.Some? && Submission(profile).Err? ==>
                sent.None? && toast == Toast(true, "Validation Error", Submission(profile).error)
      ensures user.Some? && Submission(profile).Ok? ==>
                sent == Some((user.value.id, Submission(profile).value))
      ensures sent.Some? ==>
                toast == match update(sent.value.0, sent.value.1)
                         case Some(m) => ErrorToast(m)
                         case None => Toast(false, "Settings Saved", "Your company settings have been updated successfully.")
    {
      sent := None;
      if user.None? {
        toast := ErrorToast(NotAuthenticatedMessage);
      } else {
        match Submission(profile)
        case Err(m) =>
          toast := Toast(true, "Validation Error", m);
        case Ok(patch) =>
          saving := true;
          sent := Some((user.value.id, patch));
          var error := update(user.value.id, patch);
          if error.Some? {
            toast := ErrorToast(error.value);
          } else {
            toast := Toast(false, "Settings Saved", "Your company settings have been updated successfully.");
          }
      }
      saving := false;
    }
  }
}
