/**
 * The funeral-home callback request of components/FuneralHomeCTAComponent.tsx:
 * the reset when the dialog opens, `handleRequestCallback` with its ordered
 * checks (name before phone) and its pause, and `showForm`, which hides the
 * form once the thank-you message is up.
 */
module FuneralHomeCallback {
  import opened Wrappers
  import opened Text

  const DefaultFuneralHomeName := "Our Partner Funeral Services"
  const NameRequiredMessage := "Please enter your name."
  const PhoneRequiredMessage := "Please enter your phone number to request a callback."
  /** The text `showForm` looks for. */
  const SuccessMarker := "Thank you"

  /** An optional prop with a default, which applies only when the prop is
      left out. */
  function PropOrDefault(prop: Option<string>, default: string): string {
    if prop.Some? then prop.value else default
  }

  /**
   * The checks of `handleRequestCallback`, in order: a name that is only
   * whitespace is reported whatever the phone is; then a phone that is only
   * whitespace; with both present there is no message.
   */
  function ValidationMessage(name: string, phone: string): (r: Option<string>)
    ensures r == Some(NameRequiredMessage) <==> AllWhitespace(name)
    ensures r == Some(PhoneRequiredMessage) <==> !AllWhitespace(name) && AllWhitespace(phone)
    ensures r.None? <==> !AllWhitespace(name) && !AllWhitespace(phone)
  {
    TrimEmptyIff(name);
    TrimEmptyIff(phone);
    if Trim(name) == [] then Some(NameRequiredMessage)
    else if Trim(phone) == [] then Some(PhoneRequiredMessage)
    else None
  }

  /**
   * The message once the request has gone through. It begins
   * "Thank you, <name>!", and names the funeral home and the phone number
   * that will be called.
   */
  function ThankYouMessage(name: string, phone: string, funeralHome: string): (m: string)
    ensures StartsWith(m, "Thank you, " + name + "!")
    ensures Contains(m, SuccessMarker)
    ensures Contains(m, funeralHome) && Contains(m, phone)
  {
    var head := "Thank you, " + name + "! ";
    var middle := " will contact you on ";
    var tail := " within 48 hours (on working days, Mon-Fri) to discuss our services.";
    var m := head + funeralHome + middle + phone + tail;
    assert m == head + funeralHome + (middle + phone + tail);
    ContainsInside(head, funeralHome, middle + phone + tail);
    assert m == (head + funeralHome + middle) + phone + tail;
    ContainsInside(head + funeralHome + middle, phone, tail);
    assert m[..|SuccessMarker|] == SuccessMarker;
    assert m[..|"Thank you, " + name + "!"|] == "Thank you, " + name + "!";
    m
  }

  /** `showForm`: no message, an empty one, or one without "Thank you". A
      message that begins with "Thank you" always hides the form. */
  predicate ShowForm(message: Option<string>)
    ensures message.Some? && StartsWith(message.value, SuccessMarker) ==> !ShowForm(message)
  {
    message.None? || message.value == [] || !Contains(message.value, SuccessMarker)
  }

  /** The red message under the fields; it only ever appears with the form. */
  predicate ErrorShown(message: Option<string>)
    ensures ErrorShown(message) ==> ShowForm(message) && message.Some?
  {
    message.Some? && message.value != [] && !Contains(message.value, SuccessMarker)
  }

  /** The success panel in place of the form: shown exactly when the form
      is not, so one of the two is always up. */
  predicate SuccessShown(message: Option<string>)
    ensures SuccessShown(message) <==> !ShowForm(message)
  {
    message.Some? && message.value != [] && Contains(message.value, SuccessMarker)
  }

  /** Neither validation message contains "Thank you": both keep the form
      up and are shown as errors. */
  lemma ValidationMessagesKeepForm(name: string, phone: string)
    requires ValidationMessage(name, phone).Some?
    ensures ShowForm(ValidationMessage(name, phone)) && ErrorShown(ValidationMessage(name, phone))
  {
    var m := ValidationMessage(name, phone).value;
    var n, p := NameRequiredMessage, PhoneRequiredMessage;
    assert m == n || m == p;
    assert 'T' !in n && 'T' !in p;
    NotContainsWithoutFirstChar(m, SuccessMarker);
  }

  /** The thank-you message hides the form, whatever the entries were. */
  lemma ThankYouHidesForm(name: string, phone: string, funeralHome: string)
    ensures !ShowForm(Some(ThankYouMessage(name, phone, funeralHome)))
    ensures SuccessShown(Some(ThankYouMessage(name, phone, funeralHome)))
  {
  }

  /** What a submission in its pause has captured: the entries and the
      funeral home's name as they were when it was submitted. */
  datatype CallbackRequest = CallbackRequest(name: string, phone: string, funeralHome: string)

  class CallbackForm {
    var isOpen: bool
    var defaultUserName: string
    var funeralHomeName: string
    var callerPhone: string
    var userNameForCallback: string
    var callbackFormMessage: Option<string>
    var isSubmittingCallback: bool
    /** Submissions waiting out their 1500 ms pause, oldest first. */
    var pending: seq<CallbackRequest>

    /** While submitting, a submission is waiting out its pause. */
    ghost predicate Valid()
      reads this
    {
      isSubmittingCallback ==> |pending| > 0
    }

    /** The initial state, with the props' defaults applied. The open
        effect's first run, after the initial render, sets the same values,
        so it is not a step of its own. */
    constructor (isOpen: bool, funeralHomeName: Option<string>, defaultUserName: Option<string>)
      ensures Valid()
      ensures this.isOpen == isOpen && this.defaultUserName == PropOrDefault(defaultUserName, "")
      ensures this.funeralHomeName == PropOrDefault(funeralHomeName, DefaultFuneralHomeName)
      ensures callerPhone == "" && userNameForCallback == this.defaultUserName
      ensures callbackFormMessage == None && !isSubmittingCallback && pending == []
    {
      this.isOpen := isOpen;
      this.defaultUserName := PropOrDefault(defaultUserName, "");
      this.funeralHomeName := PropOrDefault(funeralHomeName, DefaultFuneralHomeName);
      callerPhone := "";
      userNameForCallback := PropOrDefault(defaultUserName, "");
      callbackFormMessage := None;
      isSubmittingCallback := false;
      pending := [];
    }

    /**
     * The parent re-renders with new props. The funeral home's name is
     * taken as given. The open effect runs again only when `isOpen` or
     * `defaultUserName` (after its default) differs from the last render;
     * it then resets an open form's name, phone, message and submitting
     * flag. Any other re-render keeps what was typed.
     */
    method PropsChanged(isOpen: bool, funeralHomeName: Option<string>, defaultUserName: Option<string>)
      requires Valid()
      modifies this`isOpen, this`funeralHomeName, this`defaultUserName, this`userNameForCallback, this`callerPhone,
               this`callbackFormMessage, this`isSubmittingCallback
      ensures Valid()
      ensures this.isOpen == isOpen && this.defaultUserName == PropOrDefault(defaultUserName, "")
      ensures this.funeralHomeName == PropOrDefault(funeralHomeName, DefaultFuneralHomeName)
      ensures var reset := isOpen && (!old(this.isOpen) || PropOrDefault(defaultUserName, "") != old(this.defaultUserName));
        if reset then
          && userNameForCallback == this.defaultUserName && callerPhone == ""
          && callbackFormMessage == None && !isSubmittingCallback
        else
          && userNameForCallback == old(userNameForCallback) && callerPhone == old(callerPhone)
          && callbackFormMessage == old(callbackFormMessage) && isSubmittingCallback == old(isSubmittingCallback)
    {
      var newDefault := PropOrDefault(defaultUserName, "");
      var depsChanged := isOpen != this.isOpen || newDefault != this.defaultUserName;
      this.isOpen := isOpen;
      this.funeralHomeName := PropOrDefault(funeralHomeName, DefaultFuneralHomeName);
      this.defaultUserName := newDefault;
      if depsChanged && isOpen {
        userNameForCallback := newDefault;
        callerPhone := "";
        callbackFormMessage := None;
        isSubmittingCallback := false;
      }
    }

    method EditName(value: string)
      modifies this`userNameForCallback
      ensures userNameForCallback == value
    {
      userNameForCallback := value;
    }

    method EditPhone(value: string)
      modifies this`callerPhone
      ensures callerPhone == value
    {
      callerPhone := value;
    }

    /**
     * `handleRequestCallback` up to its pause; the submit button is disabled
     * while submitting. The old message is cleared first; a rejected
     * request leaves the validation message and starts nothing; an
     * accepted one starts submitting with the entries captured.
     */
    method HandleRequestCallback()
      requires Valid() && !isSubmittingCallback
      modifies this`callbackFormMessage, this`isSubmittingCallback, this`pending
      ensures Valid()
      ensures callbackFormMessage == ValidationMessage(userNameForCallback, callerPhone)
      ensures isSubmittingCallback <==> callbackFormMessage.None?
      ensures pending == old(pending) +
        if callbackFormMessage.None? then [CallbackRequest(userNameForCallback, callerPhone, funeralHomeName)] else []
    {
      callbackFormMessage := None;
      if Trim(userNameForCallback) == [] {
        callbackFormMessage := Some(NameRequiredMessage);
        return;
      }
      if Trim(callerPhone) == [] {
        callbackFormMessage := Some(PhoneRequiredMessage);
        return;
      }
      isSubmittingCallback := true;
      pending := pending + [CallbackRequest(userNameForCallback, callerPhone, funeralHomeName)];
    }

    /** The oldest pending request finishes its pause: the thank-you message
        for what it captured replaces the form, and submitting ends. */
    method ResumeCallback()
      requires Valid() && |pending| > 0
      modifies this`callbackFormMessage, this`isSubmittingCallback, this`pending
      ensures Valid()
      ensures var req := old(pending[0]);
        callbackFormMessage == Some(ThankYouMessage(req.name, req.phone, req.funeralHome))
      ensures !isSubmittingCallback && pending == old(pending[1..])
      ensures !ShowForm(callbackFormMessage)
    {
      var req := pending[0];
      pending := pending[1..];
      callbackFormMessage := Some(ThankYouMessage(req.name, req.phone, req.funeralHome));
      isSubmittingCallback := false;
      ThankYouHidesForm(req.name, req.phone, req.funeralHome);
    }
  }
}
