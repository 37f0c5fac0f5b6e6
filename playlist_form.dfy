/** The new-playlist form validation shared by the playlists page and the
    create-playlist dialog. */
module PlaylistForm {
  import opened Wrappers
  import opened JsText

  const NAME_REQUIRED := "Playlist name is required"
  const NAME_TOO_SHORT := "Playlist name must be at least 3 characters long"
  const DESCRIPTION_TOO_LONG := "Description must be less than 500 characters"

  /** The name and description typed into the form. */
  datatype PlaylistInput = PlaylistInput(name: string, description: string)

  const EMPTY_INPUT := PlaylistInput("", "")

  /** The `errors` object: a message per field, `None` where the field has none. */
  datatype FormErrors = FormErrors(name: Option<string>, description: Option<string>)

  const NO_ERRORS := FormErrors(None, None)

  /** What the create call receives: both fields trimmed. */
  function CreateRequest(input: PlaylistInput): PlaylistInput {
    PlaylistInput(Trim(input.name), Trim(input.description))
  }

  /** Trimming the request again changes nothing: it has no white space
      left at either end of either field. */
  lemma CreateRequestTrimmed(input: PlaylistInput)
    ensures CreateRequest(CreateRequest(input)) == CreateRequest(input)
  {
    TrimIdempotent(input.name);
    TrimIdempotent(input.description);
  }

  /** The errors `validateForm` records for an input, field by field: a
      blank name is missing, a trimmed name under three characters is too
      short, a description over 500 characters is too long, and a field
      meeting its rule has no error. */
  predicate RecordedErrors(input: PlaylistInput, errors: FormErrors) {
    && (errors.name == Some(NAME_REQUIRED) <==> AllSpace(input.name))
    && (errors.name == Some(NAME_TOO_SHORT) <==> !AllSpace(input.name) && |Trim(input.name)| < 3)
    && (errors.name == None <==> |Trim(input.name)| >= 3)
    && (errors.description == Some(DESCRIPTION_TOO_LONG) <==> |input.description| > 500)
    && (errors.description == None <==> |input.description| <= 500)
  }

  /** The rules leave no choice: an input has exactly one set of errors. */
  lemma RecordedErrorsUnique(input: PlaylistInput, e1: FormErrors, e2: FormErrors)
    requires RecordedErrors(input, e1) && RecordedErrors(input, e2)
    ensures e1 == e2
  {
  }

  /** `validateForm`: the name must be at least three characters once trimmed
      (a blank one is reported as missing), the description at most 500
      characters; the form is valid exactly when no field has an error. */
  method ValidateForm(input: PlaylistInput) returns (errors: FormErrors, valid: bool)
    ensures errors.name == Some(NAME_REQUIRED) <==> AllSpace(input.name)
    ensures errors.name == Some(NAME_TOO_SHORT) <==> !AllSpace(input.name) && |Trim(input.name)| < 3
    ensures errors.name == None <==> |Trim(input.name)| >= 3
    ensures errors.description == Some(DESCRIPTION_TOO_LONG) <==> |input.description| > 500
    ensures errors.description == None <==> |input.description| <= 500
    ensures valid <==> errors == NO_ERRORS
    ensures valid <==> |Trim(input.name)| >= 3 && |input.description| <= 500
    ensures RecordedErrors(input, errors)
  {
    errors := NO_ERRORS;
    var trimmed := Trim(input.name);
    if trimmed == [] {
      errors := errors.(name := Some(NAME_REQUIRED));
    } else if |trimmed| < 3 {
      errors := errors.(name := Some(NAME_TOO_SHORT));
    }
    if |input.description| > 500 {
      errors := errors.(description := Some(DESCRIPTION_TOO_LONG));
    }
    valid := errors.name.None? && errors.description.None?;
  }

  /** A name of white space only trims to nothing and is reported as
      missing, as the name "   " is. */
  lemma BlankNameMissing(input: PlaylistInput, errors: FormErrors)
    requires AllSpace(input.name)
    requires RecordedErrors(input, errors)
    ensures Trim(input.name) == [] && errors.name == Some(NAME_REQUIRED)
    ensures AllSpace("   ")
  {
  }

  /** Padding around a name is not held against it: a name surrounded by
      white space is judged as the bare name. */
  lemma PaddedNameJudgedBare(before: string, name: string, after: string)
    requires AllSpace(before) && AllSpace(after)
    requires name != [] ==> !IsSpace(name[0]) && !IsSpace(name[|name| - 1])
    ensures Trim(before + name + after) == name
    ensures |Trim(before + name + after)| >= 3 <==> |name| >= 3
  {
    TrimPadded(before, name, after);
  }
}
