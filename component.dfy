/**
 * The ProspectRegistration component of app/UI/finger-print.tsx as an
 * object: one field per `useState` slot, one method per event handler.
 * Network results are parameters; timestamps are parameters standing for
 * `new Date().toISOString()`. Each method is proved to move the state as
 * the matching function of RegistrationState or Listening says.
 */
module Component {
  import opened Wrappers
  import opened ScannerReply
  import opened RegistrationState
  import opened Listening

  class ProspectRegistration {
    var formData: FormData
    var fingerprintData: Option<FingerprintData>
    var isListening: bool
    var scannerStatus: string
    var fingerprintImage: Option<string>
    var scanningMessage: string

    /** The fields as one value. */
    function Snapshot(): State
      reads this
    {
      State(formData, fingerprintData, isListening, scannerStatus, fingerprintImage, scanningMessage)
    }

    predicate Valid()
      reads this
    {
      RegistrationState.Valid(Snapshot())
    }

    /** The initial values of the six `useState` calls. */
    constructor ()
      ensures Valid()
      ensures Snapshot() == Initial
    {
      formData := EmptyForm;
      fingerprintData := None;
      isListening := false;
      scannerStatus := NotConnected;
      fingerprintImage := None;
      scanningMessage := "";
    }

    /** `checkWebAPIStatus`, given what the status request yielded. */
    method CheckWebApiStatus(response: HttpResult) returns (connected: bool)
      requires Valid()
      modifies this
      ensures Valid()
      ensures Snapshot() == AfterProbe(old(Snapshot()), response)
      ensures connected <==> response == Responded(true)
      ensures connected <==> scannerStatus == Connected
    {
      match response
      case Responded(ok) =>
        if ok {
          scannerStatus := Connected;
          connected := true;
        } else {
          scannerStatus := ClientNotRunning;
          connected := false;
        }
      case Threw =>
        scannerStatus := ClientNotRunning;
        connected := false;
    }

    /** `startListening`, with the replies its loop would receive. */
    method StartListening(replies: seq<Reply>, now: string) returns (requests: nat)
      requires Valid()
      modifies this
      ensures Valid()
      ensures Snapshot() == AfterStartListening(old(Snapshot()), replies, now)
      ensures requests == StartRequests(old(Snapshot()), replies)
    {
      if scannerStatus != Connected {
        // the source alerts the operator here and returns
        requests := 0;
        return;
      }
      // The loop closes over the render in which this handler was created:
      // it reads this value of isListening, not the one set just below.
      var captured := isListening;
      isListening := true;
      scanningMessage := PlaceFingerMessage;
      var delays;
      requests, delays := ListenForFingerprint(captured, replies, now);
    }

    /** `stopListening`. */
    method StopListening()
      requires Valid()
      modifies this
      ensures Valid()
      ensures Snapshot() == AfterStop(old(Snapshot()))
    {
      isListening := false;
      scanningMessage := "";
    }

    /** The `listenForFingerprint` loop with the guard value its closure
        holds. It returns the number of capture requests sent and the number
        of times the 500 ms delay after the try/catch is reached. */
    method ListenForFingerprint(guard: bool, replies: seq<Reply>, now: string)
      returns (requests: nat, delays: int)
      requires Valid()
      modifies this
      ensures Valid()
      ensures Snapshot() == Listen(old(Snapshot()), guard, replies, now)
      ensures requests == RequestCount(guard, replies)
      ensures delays == 0
    {
      var i := 0;
      requests, delays := 0, 0;
      while guard && i < |replies|
        invariant i <= |replies|
        invariant requests == i && delays == 0
        invariant Valid()
        invariant Listen(Snapshot(), guard, replies[i..], now) == Listen(old(Snapshot()), guard, replies, now)
        invariant i + RequestCount(guard, replies[i..]) == RequestCount(guard, replies)
        decreases |replies| - i
      {
        ghost var before := Snapshot();
        ghost var rest := replies[i..];
        var reply := replies[i];
        assert rest[0] == reply && rest[1..] == replies[i + 1..];
        i, requests := i + 1, requests + 1;
        match reply {
        case Ok(code, template, image) =>
          if code == Some("0") {
            fingerprintData := Some(FingerprintData(template, image, now));
            if image.Some? && image.value != "" {
              fingerprintImage := Some(ImagePrefix + image.value);
            }
            scanningMessage := CapturedMessage;
            isListening := false;
            assert Snapshot() == AfterReply(before, reply, now);
            break;
          } else if code == Some("30") || code == Some("31") {
            scanningMessage := WaitingMessage;
            assert Snapshot() == AfterReply(before, reply, now);
            continue;
          } else {
            scanningMessage := ScannerErrorMessage;
            isListening := false;
            assert Snapshot() == AfterReply(before, reply, now);
            break;
          }
        case _ =>
          // a non-ok status is thrown and caught like a transport error
          scanningMessage := ConnectionErrorMessage;
          isListening := false;
          assert Snapshot() == AfterReply(before, reply, now);
          break;
        }
        // every branch above breaks or continues, so the delay after the
        // try/catch is never reached
        delays := delays + 1;
      }
    }

    /** `clearFingerprint`. */
    method ClearFingerprint()
      requires Valid()
      modifies this
      ensures Valid()
      ensures Snapshot() == AfterClear(old(Snapshot()))
    {
      fingerprintData := None;
      fingerprintImage := None;
      scanningMessage := "";
    }

    /** `handleInputChange` for the input called `name`. */
    method HandleInputChange(name: Field, value: string)
      requires Valid()
      modifies this
      ensures Valid()
      ensures Snapshot() == AfterInput(old(Snapshot()), name, value)
    {
      formData := WithField(formData, name, value);
    }

    /** `handleSubmit`: returns what is posted (nothing without a capture),
        given what the registration request yields. */
    method HandleSubmit(response: HttpResult, now: string) returns (sent: Option<RegistrationPayload>)
      requires Valid()
      modifies this
      ensures Valid()
      ensures sent == SubmitPayload(old(Snapshot()), now)
      ensures Snapshot() == AfterSubmit(old(Snapshot()), response)
    {
      if fingerprintData.None? {
        // the source alerts the operator here and returns
        sent := None;
        return;
      }
      sent := Some(RegistrationPayload(formData.firstName, formData.lastName, formData.email,
                                       formData.phone, fingerprintData.value, now));
      match response
      case Responded(ok) =>
        if ok {
          formData := EmptyForm;
          fingerprintData := None;
          fingerprintImage := None;
          scanningMessage := "";
        }
      case Threw =>
    }
  }
}
