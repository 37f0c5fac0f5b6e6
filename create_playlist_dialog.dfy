/** The create-playlist dialog: its form state, its create handler split at
    the create call, closing, typing, and which open state it shows. */
module CreatePlaylistDialog {
  import opened Wrappers
  import opened JsText
  import opened PlaylistForm

  datatype Field = Name | Description

  /** A field's error after typing into it: a (truthy) message is removed. */
  function ClearedError(e: Option<string>): (r: Option<string>)
    ensures e.Some? && e.value != [] ==> r == None
    ensures e.None? || e.value == [] ==> r == e
  {
    if e.Some? && e.value != [] then None else e
  }

  class Dialog {
    /** The `isOpen` prop, `None` when the parent leaves it undefined. */
    var isOpenProp: Option<bool>
    /** Whether the parent passed `onOpenChange`, and `onPlaylistCreated`. */
    const hasOnOpenChange: bool
    const hasOnPlaylistCreated: bool

    var internalIsOpen: bool
    var newPlaylist: PlaylistInput
    var isCreating: bool
    var formErrors: FormErrors

    constructor (isOpen: Option<bool>, onOpenChange: bool, onPlaylistCreated: bool)
      ensures isOpenProp == isOpen && hasOnOpenChange == onOpenChange && hasOnPlaylistCreated == onPlaylistCreated
      ensures !internalIsOpen && newPlaylist == EMPTY_INPUT && !isCreating && formErrors == NO_ERRORS
    {
      isOpenProp := isOpen;
      hasOnOpenChange := onOpenChange;
      hasOnPlaylistCreated := onPlaylistCreated;
      internalIsOpen := false;
      newPlaylist := EMPTY_INPUT;
      isCreating := false;
      formErrors := NO_ERRORS;
    }

    /** `dialogIsOpen`: the prop whenever it is defined, else the internal state. */
    function DialogIsOpen(): (open: bool)
      reads this
      ensures isOpenProp.Some? ==> open == isOpenProp.value
      ensures isOpenProp.None? ==> open == internalIsOpen
    {
      isOpenProp.GetOr(internalIsOpen)
    }

    /** `setDialogOpen`: hands the value to the parent's `onOpenChange` when
        there is one (returned as `forwarded`), else stores it internally. */
    method SetDialogOpen(open: bool) returns (forwarded: Option<bool>)
      modifies this
      ensures hasOnOpenChange ==> forwarded == Some(open) && internalIsOpen == old(internalIsOpen)
      ensures !hasOnOpenChange ==> forwarded == None && internalIsOpen == open
      ensures isOpenProp == old(isOpenProp) && newPlaylist == old(newPlaylist)
      ensures isCreating == old(isCreating) && formErrors == old(formErrors)
    {
      if hasOnOpenChange {
        forwarded := Some(open);
      } else {
        internalIsOpen := open;
        forwarded := None;
      }
    }

    /** `validateForm`: records the errors of the current input, as the
        shared validation computes them. */
    method ValidateForm() returns (valid: bool)
      modifies this
      ensures valid <==> |Trim(newPlaylist.name)| >= 3 && |newPlaylist.description| <= 500
      ensures valid <==> formErrors == NO_ERRORS
      ensures formErrors.name == Some(NAME_REQUIRED) <==> AllSpace(newPlaylist.name)
      ensures formErrors.description == Some(DESCRIPTION_TOO_LONG) <==> |newPlaylist.description| > 500
      ensures RecordedErrors(newPlaylist, formErrors)
      ensures newPlaylist == old(newPlaylist) && internalIsOpen == old(internalIsOpen)
      ensures isCreating == old(isCreating) && isOpenProp == old(isOpenProp)
    {
      var errors;
      errors, valid := PlaylistForm.ValidateForm(newPlaylist);
      formErrors := errors;
    }

    /** `handleCreatePlaylist` up to the create call: invalid input records
        its errors and sends nothing; valid input starts creating and sends
        the trimmed fields. */
    method BeginCreate() returns (request: Option<PlaylistInput>)
      modifies this
      ensures request.None? <==> !(|Trim(newPlaylist.name)| >= 3 && |newPlaylist.description| <= 500)
      ensures request.None? <==> formErrors != NO_ERRORS
      ensures RecordedErrors(newPlaylist, formErrors)
      ensures request.Some? ==> request.value == CreateRequest(newPlaylist) && isCreating
      ensures request.None? ==> isCreating == old(isCreating)
      ensures newPlaylist == old(newPlaylist) && internalIsOpen == old(internalIsOpen) && isOpenProp == old(isOpenProp)
    {
      var valid := ValidateForm();
      if !valid {
        return None;
      }
      request := Some(CreateRequest(newPlaylist));
      isCreating := true;
    }

    /** The rest of `handleCreatePlaylist`: after a successful call the form
        and errors are reset, the dialog is closed and the parent notified;
        after a failed one only creating ends. */
    method FinishCreate(succeeded: bool) returns (forwarded: Option<bool>, notified: bool)
      modifies this
      ensures !isCreating
      ensures succeeded ==> newPlaylist == EMPTY_INPUT && formErrors == NO_ERRORS
      ensures succeeded && !hasOnOpenChange ==> !internalIsOpen && forwarded == None
      ensures succeeded && hasOnOpenChange ==> forwarded == Some(false) && internalIsOpen == old(internalIsOpen)
      ensures notified <==> succeeded && hasOnPlaylistCreated
      ensures !succeeded ==> newPlaylist == old(newPlaylist) && formErrors == old(formErrors)
                             && internalIsOpen == old(internalIsOpen) && forwarded == None
      ensures isOpenProp == old(isOpenProp)
    {
      forwarded, notified := None, false;
      if succeeded {
        newPlaylist := EMPTY_INPUT;
        formErrors := NO_ERRORS;
        forwarded := SetDialogOpen(false);
        notified := hasOnPlaylistCreated;
      }
      isCreating := false;
    }

    /** `handleDialogClose`: closing while not creating resets the form and
        its errors; the requested state is always passed on. */
    method HandleDialogClose(open: bool) returns (forwarded: Option<bool>)
      modifies this
      ensures !open && !old(isCreating) ==> newPlaylist == EMPTY_INPUT && formErrors == NO_ERRORS
      ensures open || old(isCreating) ==> newPlaylist == old(newPlaylist) && formErrors == old(formErrors)
      ensures hasOnOpenChange ==> forwarded == Some(open) && internalIsOpen == old(internalIsOpen)
      ensures !hasOnOpenChange ==> forwarded == None && internalIsOpen == open
      ensures isCreating == old(isCreating) && isOpenProp == old(isOpenProp)
    {
      if !open && !isCreating {
        newPlaylist := EMPTY_INPUT;
        formErrors := NO_ERRORS;
      }
      forwarded := SetDialogOpen(open);
    }

    /** `handleInputChange`: sets the one field, and clears that field's
        error if it had one; the other field and its error stay. */
    method HandleInputChange(field: Field, value: string)
      modifies this
      ensures field == Name ==> newPlaylist == old(newPlaylist).(name := value)
      ensures field == Description ==> newPlaylist == old(newPlaylist).(description := value)
      ensures field == Name ==> formErrors == old(formErrors).(name := ClearedError(old(formErrors).name))
      ensures field == Description ==>
                formErrors == old(formErrors).(description := ClearedError(old(formErrors).description))
      ensures isCreating == old(isCreating) && internalIsOpen == old(internalIsOpen) && isOpenProp == old(isOpenProp)
    {
      match field
      case Name =>
        newPlaylist := newPlaylist.(name := value);
        if formErrors.name.Some? && formErrors.name.value != [] {
          formErrors := formErrors.(name := None);
        }
      case Description =>
        newPlaylist := newPlaylist.(description := value);
        if formErrors.description.Some? && formErrors.description.value != [] {
          formErrors := formErrors.(description := None);
        }
    }
  }
}
