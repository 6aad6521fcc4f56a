/**
 * The closing call-to-action form: a single email field, checked for
 * blankness after trimming and then against the shared email pattern,
 * with the error cleared as soon as the field is edited.
 */
module SignUpCta {
  import opened Text
  import opened Email
  import Navbar

  /** The message a submit shows: required when blank after trimming, invalid when the untrimmed text fails the pattern, none otherwise. */
  function SubmitError(email: string): (r: string)
    ensures r == Navbar.EmailRequired <==> Blank(email)
    ensures r == Navbar.EmailInvalid <==> !Blank(email) && !ValidateEmail(email)
    ensures r == "" <==> ValidateEmail(email)
  {
    assert ValidateEmail(email) ==> !Blank(email) by {
      if ValidateEmail(email) {
        ValidShape(email);
      }
    }
    if Trim(email) == "" then Navbar.EmailRequired
    else if !ValidateEmail(email) then Navbar.EmailInvalid
    else ""
  }

  /** A padded address is rejected as invalid, although trimming would have made it valid. */
  lemma PaddedEmailRejected(email: string)
    requires |email| > 0 && !Blank(email) && (IsSpace(email[0]) || IsSpace(email[|email| - 1]))
    ensures SubmitError(email) == Navbar.EmailInvalid
  {
    if ValidateEmail(email) {
      ValidShape(email);
    }
  }

  /**
   * The two forms disagree only on whitespace: on a non-empty all-blank
   * address this form asks for an email while the dialog calls it
   * invalid; on every other address they show the same message.
   */
  lemma FormsAgreeExceptOnBlank(email: string)
    ensures email != "" && Blank(email) ==>
      SubmitError(email) == Navbar.EmailRequired && Navbar.EmailError(email) == Navbar.EmailInvalid
    ensures !(email != "" && Blank(email)) ==> SubmitError(email) == Navbar.EmailError(email)
  {
    if email != "" && Blank(email) {
      Navbar.WhitespaceEmailIsInvalid(email);
    }
  }

  /** The form's state. */
  class SignUpForm {
    var email: string
    var isSubmitting: bool
    var emailError: string

    constructor ()
      ensures email == "" && !isSubmitting && emailError == ""
    {
      email, isSubmitting, emailError := "", false, "";
    }

    /** Editing the field replaces the text and clears any shown message. */
    method OnEmailChange(value: string)
      modifies this`email, this`emailError
      ensures email == value && emailError == ""
    {
      email := value;
      if emailError != "" {
        emailError := "";
      }
    }

    /**
     * `handleEmailSubmit` up to the simulated request: a blank or
     * invalid address shows its message and stops; a valid one clears
     * the message, starts submitting and reports `submitted`.
     */
    method HandleEmailSubmit() returns (submitted: bool)
      modifies this`emailError, this`isSubmitting
      ensures emailError == SubmitError(email)
      ensures submitted <==> ValidateEmail(email)
      ensures !submitted ==> isSubmitting == old(isSubmitting)
      ensures submitted ==> isSubmitting
    {
      var expected := SubmitError(email);
      if Trim(email) == "" {
        emailError := Navbar.EmailRequired;
        assert emailError == expected;
        return false;
      }
      if !ValidateEmail(email) {
        emailError := Navbar.EmailInvalid;
        assert emailError == expected;
        return false;
      }
      emailError := "";
      assert emailError == expected;
      isSubmitting := true;
      return true;
    }

    /** The continuation: on success the field is emptied; either way (the `finally`) submitting ends. */
    method CompleteSubmit(failed: bool)
      requires isSubmitting
      modifies this`email, this`isSubmitting
      ensures !isSubmitting
      ensures failed ==> email == old(email)
      ensures !failed ==> email == ""
    {
      if !failed {
        email := "";
      }
      isSubmitting := false;
    }
  }
}
