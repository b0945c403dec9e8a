/**
 * The state of the ProspectRegistration component of app/UI/finger-print.tsx
 * as a value, and the effect of each event handler on it. The class in
 * component.dfy holds the same six pieces of state in fields; its methods
 * are proved to move that state exactly as these functions say.
 */
module RegistrationState {
  import opened Wrappers
  import opened ScannerReply

  /** The four registration form inputs. */
  datatype FormData = FormData(firstName: string, lastName: string, email: string, phone: string)

  /** The `name` attribute of the input that fired a change event. */
  datatype Field = FirstName | LastName | Email | Phone

  /** A capture as stored by the component. */
  datatype FingerprintData = FingerprintData(template: Option<string>, image: Option<string>, timestamp: string)

  /** The six `useState` slots of the component. */
  datatype State = State(
    formData: FormData,
    fingerprintData: Option<FingerprintData>,
    isListening: bool,
    scannerStatus: string,
    fingerprintImage: Option<string>,
    scanningMessage: string)

  /** What a `fetch` without a parsed body yields: it threw, or it answered with `response.ok`. */
  datatype HttpResult = Threw | Responded(ok: bool)

  /** The JSON object posted to the registration endpoint. */
  datatype RegistrationPayload = RegistrationPayload(
    firstName: string, lastName: string, email: string, phone: string,
    fingerprint: FingerprintData, registrationTime: string)

  const NotConnected: string := "Not Connected"
  const Connected: string := "Connected"
  const ClientNotRunning: string := "WebAPI Client Not Running"

  const PlaceFingerMessage: string := "Place your finger on the scanner..."
  const WaitingMessage: string := "Waiting for finger placement..."
  const CapturedMessage: string := "Fingerprint captured successfully!"
  const ScannerErrorMessage: string := "Scanner error. Please try again."
  const ConnectionErrorMessage: string := "Connection error. Please check scanner."

  const ImagePrefix: string := "data:image/bmp;base64,"

  const EmptyForm: FormData := FormData("", "", "", "")

  /** The state of a freshly mounted component. */
  const Initial: State := State(EmptyForm, None, false, NotConnected, None, "")

  /** The object invariant every handler keeps: an image is only shown for
      stored fingerprint data, and the status is one of the three texts the
      component ever writes. */
  predicate Valid(s: State) {
    && (s.fingerprintImage.Some? ==> s.fingerprintData.Some?)
    && s.scannerStatus in {NotConnected, Connected, ClientNotRunning}
  }

  function FieldValue(f: FormData, name: Field): string {
    match name
    case FirstName => f.firstName
    case LastName => f.lastName
    case Email => f.email
    case Phone => f.phone
  }

  /** `{...formData, [name]: value}` for one of the four input names. */
  function WithField(f: FormData, name: Field, value: string): (g: FormData)
    ensures FieldValue(g, name) == value
    ensures forall other :: other != name ==> FieldValue(g, other) == FieldValue(f, other)
  {
    match name
    case FirstName => f.(firstName := value)
    case LastName => f.(lastName := value)
    case Email => f.(email := value)
    case Phone => f.(phone := value)
  }

  /** `checkWebAPIStatus`: an answered, ok probe means "Connected"; a non-ok
      answer or a thrown fetch means the client is not running. Only the
      status changes. */
  function AfterProbe(s: State, response: HttpResult): (r: State)
    ensures response == Responded(true) ==> r.scannerStatus == Connected
    ensures response != Responded(true) ==> r.scannerStatus == ClientNotRunning
    ensures r == s.(scannerStatus := r.scannerStatus)
    ensures Valid(s) ==> Valid(r)
  {
    match response
    case Responded(ok) => s.(scannerStatus := if ok then Connected else ClientNotRunning)
    case Threw => s.(scannerStatus := ClientNotRunning)
  }

  /** The synchronous part of `startListening`, up to the call of the loop:
      nothing changes unless the scanner is "Connected"; then listening is
      switched on with the placement prompt. */
  function AfterStart(s: State): (r: State)
    ensures s.scannerStatus != Connected ==> r == s
    ensures s.scannerStatus == Connected ==>
              r.isListening && r.scanningMessage == PlaceFingerMessage
    ensures r == s.(isListening := r.isListening, scanningMessage := r.scanningMessage)
    ensures Valid(s) ==> Valid(r)
  {
    if s.scannerStatus != Connected then s
    else s.(isListening := true, scanningMessage := PlaceFingerMessage)
  }

  /** `stopListening`: listening off, message cleared, nothing else. */
  function AfterStop(s: State): (r: State)
    ensures !r.isListening && r.scanningMessage == ""
    ensures r == s.(isListening := r.isListening, scanningMessage := r.scanningMessage)
    ensures Valid(s) ==> Valid(r)
  {
    s.(isListening := false, scanningMessage := "")
  }

  /** `clearFingerprint`: capture and image dropped, message cleared,
      nothing else. */
  function AfterClear(s: State): (r: State)
    ensures r.fingerprintData == None && r.fingerprintImage == None && r.scanningMessage == ""
    ensures r == s.(fingerprintData := r.fingerprintData, fingerprintImage := r.fingerprintImage,
                    scanningMessage := r.scanningMessage)
    ensures Valid(s) ==> Valid(r)
  {
    s.(fingerprintData := None, fingerprintImage := None, scanningMessage := "")
  }

  /** `handleInputChange`: only the named form field takes the new value. */
  function AfterInput(s: State, name: Field, value: string): (r: State)
    ensures FieldValue(r.formData, name) == value
    ensures forall other :: other != name ==> FieldValue(r.formData, other) == FieldValue(s.formData, other)
    ensures r == s.(formData := r.formData)
    ensures Valid(s) ==> Valid(r)
  {
    s.(formData := WithField(s.formData, name, value))
  }

  /** One pass of the body of the `listenForFingerprint` loop on `reply`,
      with `now` standing for `new Date().toISOString()`. */
  function AfterReply(s: State, reply: Reply, now: string): (r: State)
    ensures Classify(reply).Captured? ==>
              && r.fingerprintData == Some(FingerprintData(reply.template, reply.image, now))
              && !r.isListening
              && r.scanningMessage == CapturedMessage
              && r.fingerprintImage ==
                   (if reply.image.Some? && reply.image.value != "" then Some(ImagePrefix + reply.image.value)
                    else s.fingerprintImage)
              && r == s.(fingerprintData := r.fingerprintData, isListening := r.isListening,
                         fingerprintImage := r.fingerprintImage, scanningMessage := r.scanningMessage)
    ensures Classify(reply).Retry? ==>
              r == s.(scanningMessage := WaitingMessage)
    ensures Classify(reply).ScannerError? ==>
              r == s.(isListening := false, scanningMessage := ScannerErrorMessage)
    ensures Classify(reply).ConnectionError? ==>
              r == s.(isListening := false, scanningMessage := ConnectionErrorMessage)
    ensures Valid(s) ==> Valid(r)
  {
    match reply
    case Ok(code, template, image) =>
      if code == Some("0") then
        var shown := if image.Some? && image.value != "" then Some(ImagePrefix + image.value)
                     else s.fingerprintImage;
        s.(fingerprintData := Some(FingerprintData(template, image, now)), fingerprintImage := shown,
           scanningMessage := CapturedMessage, isListening := false)
      else if code == Some("30") || code == Some("31") then
        s.(scanningMessage := WaitingMessage)
      else
        s.(scanningMessage := ScannerErrorMessage, isListening := false)
    case _ =>
      s.(scanningMessage := ConnectionErrorMessage, isListening := false)
  }

  /** The object `handleSubmit` posts, or `None` when there is no capture
      and nothing is sent. */
  function SubmitPayload(s: State, now: string): (p: Option<RegistrationPayload>)
    ensures p.Some? <==> s.fingerprintData.Some?
    ensures p.Some? ==>
              && p.value.firstName == s.formData.firstName
              && p.value.lastName == s.formData.lastName
              && p.value.email == s.formData.email
              && p.value.phone == s.formData.phone
              && p.value.fingerprint == s.fingerprintData.value
              && p.value.registrationTime == now
  {
    match s.fingerprintData
    case None => None
    case Some(data) =>
      var f := s.formData;
      Some(RegistrationPayload(f.firstName, f.lastName, f.email, f.phone, data, now))
  }

  /** The state after `handleSubmit`: with no capture, or when the post
      threw or was answered with a failure, nothing changes; an ok answer
      resets the form and drops the capture, the image and the message. */
  function AfterSubmit(s: State, response: HttpResult): (r: State)
    ensures s.fingerprintData.None? || response != Responded(true) ==> r == s
    ensures s.fingerprintData.Some? && response == Responded(true) ==>
              && r.formData == EmptyForm
              && r.fingerprintData == None && r.fingerprintImage == None && r.scanningMessage == ""
              && r == s.(formData := r.formData, fingerprintData := r.fingerprintData,
                         fingerprintImage := r.fingerprintImage, scanningMessage := r.scanningMessage)
    ensures Valid(s) ==> Valid(r)
  {
    if s.fingerprintData.None? then s
    else match response
      case Responded(true) =>
        s.(formData := EmptyForm, fingerprintData := None, fingerprintImage := None, scanningMessage := "")
      case _ => s
  }

  /** After a successful registration a second submit sends nothing. */
  lemma SubmitOnce(s: State, response: HttpResult, now: string)
    requires s.fingerprintData.Some? && response == Responded(true)
    ensures SubmitPayload(AfterSubmit(s, response), now) == None
  {
  }
}
