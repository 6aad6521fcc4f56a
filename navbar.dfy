/**
 * The navigation bar's sign-up dialog: the password rule, the error
 * messages computed on submit and their precedence, and the state
 * changes of a rejected and of an accepted submit.
 */
module Navbar {
  import opened Text
  import opened Email

  datatype SignUpData = SignUpData(email: string, password: string)
  datatype FormErrors = FormErrors(email: string, password: string)

  const EmptyData := SignUpData("", "")
  const NoErrors := FormErrors("", "")

  const EmailRequired := "Email is required"
  const EmailInvalid := "Please enter a valid email address"
  const PasswordRequired := "Password is required"
  const PasswordTooShort := "Password must be at least 8 characters"

  /** `validatePassword`: at least eight characters. */
  predicate ValidatePassword(password: string)
  {
    |password| >= 8
  }

  /** The email message: required when empty (untrimmed), invalid when the pattern fails, none otherwise. */
  function EmailError(email: string): (r: string)
    ensures r == EmailRequired <==> email == ""
    ensures r == EmailInvalid <==> email != "" && !ValidateEmail(email)
    ensures r == "" <==> ValidateEmail(email)
  {
    if email == "" then EmailRequired
    else if !ValidateEmail(email) then EmailInvalid
    else ""
  }

  /** The password message: required when empty, too short under eight characters, none otherwise. */
  function PasswordError(password: string): (r: string)
    ensures r == PasswordRequired <==> password == ""
    ensures r == PasswordTooShort <==> 0 < |password| < 8
    ensures r == "" <==> ValidatePassword(password)
  {
    if password == "" then PasswordRequired
    else if !ValidatePassword(password) then PasswordTooShort
    else ""
  }

  /** There is no trim: a non-empty all-whitespace email gets the invalid-address message, not the required one. */
  lemma WhitespaceEmailIsInvalid(email: string)
    requires email != "" && Blank(email)
    ensures EmailError(email) == EmailInvalid
  {
    if ValidateEmail(email) {
      ValidShape(email);
    }
  }

  /** A submit goes ahead exactly when the address matches the pattern and the password has eight characters. */
  lemma SubmitProceedsIff(data: SignUpData)
    ensures FormErrors(EmailError(data.email), PasswordError(data.password)) == NoErrors
            <==> ValidateEmail(data.email) && ValidatePassword(data.password)
  {
  }

  /** The dialog's state. */
  class SignUpDialog {
    var isSignUpOpen: bool
    var signUpData: SignUpData
    var errors: FormErrors
    var isLoading: bool

    constructor ()
      ensures !isSignUpOpen && signUpData == EmptyData && errors == NoErrors && !isLoading
    {
      isSignUpOpen, signUpData, errors, isLoading := false, EmptyData, NoErrors, false;
    }

    /** The dialog's open/close control. */
    method SetOpen(open: bool)
      modifies this`isSignUpOpen
      ensures isSignUpOpen == open
    {
      isSignUpOpen := open;
    }

    /** Typing in the email field changes the data only; a shown error stays until the next submit. */
    method SetEmail(email: string)
      modifies this`signUpData
      ensures signUpData == old(signUpData).(email := email)
    {
      signUpData := signUpData.(email := email);
    }

    /** Typing in the password field. */
    method SetPassword(password: string)
      modifies this`signUpData
      ensures signUpData == old(signUpData).(password := password)
    {
      signUpData := signUpData.(password := password);
    }

    /**
     * `handleSignUpSubmit` up to the simulated request: the two messages
     * are computed independently and shown; with any message the handler
     * stops there, otherwise loading starts and `submitted` is true.
     */
    method HandleSignUpSubmit() returns (submitted: bool)
      modifies this`errors, this`isLoading
      ensures errors == FormErrors(EmailError(signUpData.email), PasswordError(signUpData.password))
      ensures submitted <==> ValidateEmail(signUpData.email) && ValidatePassword(signUpData.password)
      ensures !submitted ==> isLoading == old(isLoading)
      ensures submitted ==> isLoading
    {
      var newErrors := NoErrors;
      if signUpData.email == "" {
        newErrors := newErrors.(email := EmailRequired);
      } else if !ValidateEmail(signUpData.email) {
        newErrors := newErrors.(email := EmailInvalid);
      }
      if signUpData.password == "" {
        newErrors := newErrors.(password := PasswordRequired);
      } else if !ValidatePassword(signUpData.password) {
        newErrors := newErrors.(password := PasswordTooShort);
      }
      errors := newErrors;
      if newErrors.email != "" || newErrors.password != "" {
        return false;
      }
      isLoading := true;
      return true;
    }

    /** The continuation after the simulated request: loading ends, the dialog closes, data and messages are emptied. */
    method FinishSignUp()
      requires isLoading
      modifies this
      ensures !isLoading && !isSignUpOpen
      ensures signUpData == EmptyData && errors == NoErrors
    {
      isLoading := false;
      isSignUpOpen := false;
      signUpData := EmptyData;
      errors := NoErrors;
    }
  }
}
