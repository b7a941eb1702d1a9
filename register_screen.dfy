/**
 * The registration form: its five text fields, the field update, the
 * validity test that enables the submit button, and the submit handler that
 * either reports a password mismatch or passes the new account's details on.
 */
module RegisterScreen {
  import LC = LanguageContext

  datatype Field = Name | Email | Phone | Password | ConfirmPassword

  datatype FormData = FormData(name: string, email: string, phone: string, password: string, confirmPassword: string)

  /** What `onRegister` receives; the confirmation field is not part of it. */
  datatype Registration = Registration(name: string, email: string, phone: string, password: string)

  /** Keys of the strings this screen takes from its own inline table. */
  datatype ScreenText = PasswordMismatch

  /** What one press of the submit button does. */
  datatype SubmitOutcome =
    | MismatchAlert(message: LC.LocalText<ScreenText>)
    | Register(payload: Registration)
    | NoAction

  function Get(form: FormData, field: Field): string {
    match field
    case Name => form.name
    case Email => form.email
    case Phone => form.phone
    case Password => form.password
    case ConfirmPassword => form.confirmPassword
  }

  const EmptyForm := FormData("", "", "", "", "")

  /** `{ ...prev, [field]: value }`: the one field replaced, the other four kept. */
  function WithField(form: FormData, field: Field, value: string): (r: FormData)
    ensures Get(r, field) == value
    ensures forall g :: g != field ==> Get(r, g) == Get(form, g)
  {
    match field
    case Name => form.(name := value)
    case Email => form.(email := value)
    case Phone => form.(phone := value)
    case Password => form.(password := value)
    case ConfirmPassword => form.(confirmPassword := value)
  }

  /** `isFormValid`: all five fields filled in, and the two passwords equal. */
  predicate IsFormValid(form: FormData)
    ensures IsFormValid(form) <==> (forall f :: Get(form, f) != "") && Get(form, Password) == Get(form, ConfirmPassword)
  {
    assert Get(form, Name) == form.name && Get(form, Email) == form.email && Get(form, Phone) == form.phone;
    assert Get(form, Password) == form.password && Get(form, ConfirmPassword) == form.confirmPassword;
    && form.name != "" && form.email != "" && form.phone != ""
    && form.password != "" && form.confirmPassword != ""
    && form.password == form.confirmPassword
  }

  /**
   * `handleSubmit`: a mismatch alert when the passwords differ; otherwise the
   * registration when name, email, phone and password are all filled in;
   * otherwise nothing. Registration happens exactly for a valid form, and
   * carries the form's four fields, never the confirmation.
   */
  function Submit(form: FormData, lang: LC.Language): (o: SubmitOutcome)
    ensures o.MismatchAlert? <==> form.password != form.confirmPassword
    ensures o.MismatchAlert? ==> o.message == LC.LocalText(PasswordMismatch, lang)
    ensures o.Register? <==> IsFormValid(form)
    ensures o.Register? ==> o.payload == Registration(form.name, form.email, form.phone, form.password)
  {
    if form.password != form.confirmPassword then
      MismatchAlert(LC.LocalText(PasswordMismatch, lang))
    else if form.name != "" && form.email != "" && form.phone != "" && form.password != "" then
      Register(Registration(form.name, form.email, form.phone, form.password))
    else
      NoAction
  }

  /**
   * The submit button is disabled while loading or while the form is invalid;
   * with the button enabled, `handleSubmit` registers.
   */
  predicate SubmitDisabled(isLoading: bool, form: FormData)
    ensures isLoading ==> SubmitDisabled(isLoading, form)
    ensures !SubmitDisabled(isLoading, form) ==> forall lang :: Submit(form, lang).Register?
    ensures SubmitDisabled(isLoading, form) && !isLoading ==> forall lang :: !Submit(form, lang).Register?
  {
    isLoading || !IsFormValid(form)
  }

  /** The `formData` state cell of the screen. */
  class RegisterForm {
    var formData: FormData

    constructor ()
      ensures formData == EmptyForm
    {
      formData := EmptyForm;
    }

    /** `updateField(field, value)`. */
    method UpdateField(field: Field, value: string)
      modifies this
      ensures formData == WithField(old(formData), field, value)
      ensures Get(formData, field) == value
      ensures forall g :: g != field ==> Get(formData, g) == Get(old(formData), g)
    {
      formData := WithField(formData, field, value);
    }

    /** `handleSubmit` on the current form; it changes no state of the screen. */
    method HandleSubmit(lang: LC.Language) returns (o: SubmitOutcome)
      ensures o == Submit(formData, lang)
      ensures o.Register? <==> IsFormValid(formData)
    {
      o := Submit(formData, lang);
    }
  }

  /** Filling in all five fields with matching passwords enables registration with those details. */
  method FillInAndSubmit(name: string, email: string, phone: string, password: string)
    requires name != "" && email != "" && phone != "" && password != ""
  {
    var form := new RegisterForm();
    form.UpdateField(Name, name);
    form.UpdateField(Email, email);
    form.UpdateField(Phone, phone);
    form.UpdateField(Password, password);
    form.UpdateField(ConfirmPassword, password);
    assert !SubmitDisabled(false, form.formData);
    var o := form.HandleSubmit(LC.English);
    assert o == Register(Registration(name, email, phone, password));
  }
}
