/**
 * The mock sign-in page of app/login/page.tsx: the mount-time check of a
 * stored session, and `handleMockLogin`, which validates the three fields
 * and, after a pause, stores the visitor's name and relationship.
 */
module Login {
  import opened Wrappers
  import opened Text
  import opened Browser

  const MockUserStorageKey := "tributeWall_mockUser_v1"
  const CompleteAllFieldsError := "Please complete all fields to continue."
  const PasswordRequiredError := "Password is required for this simulation."
  const UnexpectedError := "An unexpected error occurred. Please try again."

  /** `MockUserData`, the record kept under `MockUserStorageKey`. */
  datatype MockUserData = MockUserData(fullName: string, relationship: string)

  /** `JSON.stringify(userData)` as the slot's value: only the two fields. */
  function Serialized(u: MockUserData): StoredValue {
    JsonObject(u.fullName, u.relationship)
  }

  /**
   * The checks at the start of `handleMockLogin`. Any field that is empty
   * after trimming gives the "complete all fields" error; the later
   * `password.length < 1` check can then never fire, because a password
   * that trims to something non-empty has at least one character.
   */
  function ValidationError(fullName: string, password: string, relationship: string): (r: Option<string>)
    ensures r.None? <==> !AllWhitespace(fullName) && !AllWhitespace(password) && !AllWhitespace(relationship)
    ensures r.Some? ==> r.value == CompleteAllFieldsError
  {
    TrimEmptyIff(fullName);
    TrimEmptyIff(password);
    TrimEmptyIff(relationship);
    if Trim(fullName) == [] || Trim(password) == [] || Trim(relationship) == [] then
      Some(CompleteAllFieldsError)
    else if |password| < 1 then
      Some(PasswordRequiredError)
    else
      None
  }

  class LoginPage {
    var fullName: string
    var password: string
    var relationship: string
    var isCheckingAuth: bool
    var isSubmitting: bool
    var error: Option<string>
    var navigation: Option<Navigation>
    /** A submission waiting out its 750 ms pause, holding the trimmed
        record it will store. */
    var pending: Option<MockUserData>
    const storage: LocalStorage

    ghost predicate Valid()
      reads this
    {
      pending.Some? ==> isSubmitting && pending.value.fullName != [] && pending.value.relationship != []
    }

    constructor (storage: LocalStorage)
      ensures Valid() && this.storage == storage
      ensures fullName == "" && password == "" && relationship == ""
      ensures isCheckingAuth && !isSubmitting && error == None && navigation == None && pending == None
    {
      this.storage := storage;
      fullName, password, relationship := "", "", "";
      isCheckingAuth, isSubmitting := true, false;
      error, navigation, pending := None, None, None;
    }

    /**
     * The mount effect. A stored record that parses, whatever its fields,
     * sends the visitor on to the wall and the loader stays up; an
     * unparsable one is removed and the form is shown; an absent or blank
     * one simply shows the form.
     */
    method Mount()
      requires Valid()
      modifies this`isCheckingAuth, this`navigation, storage
      ensures Valid()
      ensures var v := old(storage.GetItem(MockUserStorageKey));
        if v.None? || v == Some(Blank) then
          !isCheckingAuth && navigation == old(navigation) && storage.items == old(storage.items)
        else if v == Some(Unparsable) then
          !isCheckingAuth && navigation == old(navigation)
          && storage.items == old(storage.items) - {MockUserStorageKey}
        else
          isCheckingAuth == old(isCheckingAuth) && navigation == Some(Replace(Home))
          && storage.items == old(storage.items)
    {
      var stored := storage.GetItem(MockUserStorageKey);
      if stored.Some? && stored.value != Blank {
        if stored.value.Unparsable? {
          storage.RemoveItem(MockUserStorageKey);
          isCheckingAuth := false;
        } else {
          navigation := Some(Replace(Home));
        }
      } else {
        isCheckingAuth := false;
      }
    }

    /** Typing into the fields; they are disabled while submitting. */
    method EditFullName(value: string)
      requires !isSubmitting
      modifies this`fullName
      ensures fullName == value
    {
      fullName := value;
    }

    method EditPassword(value: string)
      requires !isSubmitting
      modifies this`password
      ensures password == value
    {
      password := value;
    }

    method EditRelationship(value: string)
      requires !isSubmitting
      modifies this`relationship
      ensures relationship == value
    {
      relationship := value;
    }

    /**
     * `handleMockLogin` up to its pause. The error is cleared first; a
     * rejected submission sets the error, leaves `isSubmitting` false and
     * touches no storage; an accepted one starts submitting.
     */
    method HandleMockLogin()
      requires Valid() && !isSubmitting
      modifies this`error, this`isSubmitting, this`pending
      ensures Valid()
      ensures error == ValidationError(fullName, password, relationship)
      ensures error.Some? ==> error == Some(CompleteAllFieldsError)
      ensures isSubmitting <==> error.None?
      ensures pending == if error.None? then Some(MockUserData(Trim(fullName), Trim(relationship))) else None
    {
      error := None;
      error := ValidationError(fullName, password, relationship);
      TrimEmptyIff(fullName);
      TrimEmptyIff(relationship);
      if error.Some? {
        return;
      }
      isSubmitting := true;
      pending := Some(MockUserData(Trim(fullName), Trim(relationship)));
    }

    /**
     * The rest of `handleMockLogin`, after the pause. The stored record
     * holds only the trimmed name and relationship, never the password. A
     * write the browser refuses sets the error and ends submitting.
     */
    method ResumeLogin(accepted: bool)
      requires Valid() && pending.Some?
      modifies this`error, this`isSubmitting, this`pending, this`navigation, storage
      ensures Valid() && pending == None
      ensures storage.items == if accepted then old(storage.items)[MockUserStorageKey := Serialized(old(pending.value))]
                               else old(storage.items)
      ensures accepted ==> navigation == Some(Push(Home)) && isSubmitting && error == old(error)
      ensures !accepted ==> error == Some(UnexpectedError) && !isSubmitting && navigation == old(navigation)
    {
      var userData := pending.value;
      pending := None;
      storage.SetItem(MockUserStorageKey, Serialized(userData), accepted);
      if accepted {
        navigation := Some(Push(Home));
      } else {
        error := Some(UnexpectedError);
        isSubmitting := false;
      }
    }
  }
}
