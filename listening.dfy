/**
 * The `listenForFingerprint` loop of app/UI/finger-print.tsx over a
 * sequence of scanner replies, and what it is proved to do.
 *
 * The loop is `while (isListening) { ... }`, where `isListening` is the
 * constant the render's closure captured; the setters inside the loop do
 * not change it. The model therefore takes the guard as a parameter that
 * stays fixed for the whole loop. Every branch of the body either breaks
 * or continues, so the loop ends only at a reply that is not 30/31 (or,
 * in the model, when no replies are left).
 */
module Listening {
  import opened Wrappers
  import opened ScannerReply
  import opened RegistrationState

  /** The state after the loop has run with the fixed `guard` on the
      replies the scanner gives, in order. */
  function Listen(s: State, guard: bool, replies: seq<Reply>, now: string): State
    decreases |replies|
  {
    if !guard || replies == [] then s
    else
      var next := AfterReply(s, replies[0], now);
      if IsRetry(replies[0]) then Listen(next, guard, replies[1..], now) else next
  }

  /** How many capture requests the loop sends. */
  function RequestCount(guard: bool, replies: seq<Reply>): nat
    decreases |replies|
  {
    if !guard || replies == [] then 0
    else if IsRetry(replies[0]) then 1 + RequestCount(guard, replies[1..])
    else 1
  }

  /** The index of the first reply that is not 30/31, or `|replies|`. */
  function FirstDecisive(replies: seq<Reply>): (k: nat)
    ensures k <= |replies|
    ensures forall j :: 0 <= j < k ==> IsRetry(replies[j])
    ensures k < |replies| ==> !IsRetry(replies[k])
    decreases |replies|
  {
    if replies == [] || !IsRetry(replies[0]) then 0
    else 1 + FirstDecisive(replies[1..])
  }

  /** A waiting message left by earlier retries is overwritten by the
      reply that ends the loop. */
  lemma DecisiveOverwritesMessage(s: State, reply: Reply, now: string, message: string)
    requires !IsRetry(reply)
    ensures AfterReply(s.(scanningMessage := message), reply, now) == AfterReply(s, reply, now)
  {
    match Classify(reply)
    case Captured(_, _) =>
    case ScannerError =>
    case ConnectionError =>
  }

  /** With the guard true the loop runs up to and including the first
      reply that is not 30/31 and ends in exactly the state that reply
      alone produces; if every reply is a retry, all that is left is the
      waiting message. It sends one request per reply it consumes. */
  lemma {:induction false} ListenOutcome(s: State, replies: seq<Reply>, now: string)
    ensures var k := FirstDecisive(replies);
            Listen(s, true, replies, now) ==
              if k < |replies| then AfterReply(s, replies[k], now)
              else if k == 0 then s
              else s.(scanningMessage := WaitingMessage)
    ensures var k := FirstDecisive(replies);
            RequestCount(true, replies) == if k < |replies| then k + 1 else |replies|
    decreases |replies|
  {
    if replies != [] && IsRetry(replies[0]) {
      var next := AfterReply(s, replies[0], now);
      assert next == s.(scanningMessage := WaitingMessage);
      ListenOutcome(next, replies[1..], now);
      var k' := FirstDecisive(replies[1..]);
      assert FirstDecisive(replies) == k' + 1;
      if k' < |replies[1..]| {
        DecisiveOverwritesMessage(s, replies[1..][k'], now, WaitingMessage);
      } else if k' > 0 {
        assert next.(scanningMessage := WaitingMessage) == next;
      }
    }
  }

  /** A run that meets a reply other than 30/31 ends with listening off. */
  lemma ListenStopsListening(s: State, replies: seq<Reply>, now: string)
    requires exists j :: 0 <= j < |replies| && !IsRetry(replies[j])
    ensures !Listen(s, true, replies, now).isListening
  {
    var j :| 0 <= j < |replies| && !IsRetry(replies[j]);
    assert FirstDecisive(replies) <= j;
    ListenOutcome(s, replies, now);
  }

  /** Fingerprint data is recorded from the first decisive reply exactly
      when its ErrorCode is "0"; otherwise the stored data is untouched. */
  lemma ListenRecordsFirstCapture(s: State, replies: seq<Reply>, now: string)
    ensures var k := FirstDecisive(replies);
            var r := Listen(s, true, replies, now);
            if k < |replies| && Classify(replies[k]).Captured? then
              r.fingerprintData == Some(FingerprintData(replies[k].template, replies[k].image, now))
            else
              r.fingerprintData == s.fingerprintData
  {
    ListenOutcome(s, replies, now);
  }

  /** A loop whose guard is false sends nothing and changes nothing. */
  lemma ListenGuardFalse(s: State, replies: seq<Reply>, now: string)
    ensures Listen(s, false, replies, now) == s
    ensures RequestCount(false, replies) == 0
  {
  }

  /** Every pass of the loop keeps the component invariant. */
  lemma {:induction false} ListenPreservesValid(s: State, guard: bool, replies: seq<Reply>, now: string)
    requires Valid(s)
    ensures Valid(Listen(s, guard, replies, now))
    decreases |replies|
  {
    if guard && replies != [] && IsRetry(replies[0]) {
      ListenPreservesValid(AfterReply(s, replies[0], now), guard, replies[1..], now);
    }
  }

  /** `startListening` as written: the loop it starts runs with the guard
      its own render captured. */
  function AfterStartListening(s: State, replies: seq<Reply>, now: string): State {
    if s.scannerStatus != Connected then s
    else Listen(AfterStart(s), s.isListening, replies, now)
  }

  /** Requests sent by `startListening` as written. */
  function StartRequests(s: State, replies: seq<Reply>): nat {
    if s.scannerStatus != Connected then 0 else RequestCount(s.isListening, replies)
  }

  /** The start button is rendered only while `isListening` is false, so
      the loop it starts sees a false guard: it sends no request, and the
      only effect is the synchronous prompt. */
  lemma StartListeningNeverPolls(s: State, replies: seq<Reply>, now: string)
    requires !s.isListening
    ensures AfterStartListening(s, replies, now) == AfterStart(s)
    ensures StartRequests(s, replies) == 0
  {
  }

  /** A concrete run: connected and idle, the scanner would answer "0"
      with a template and an image, yet nothing is captured. */
  lemma StaleGuardMissesCapture()
    ensures var s := Initial.(scannerStatus := Connected);
            var replies := [Ok(Some("0"), Some("T"), Some("I"))];
            && AfterStartListening(s, replies, "t").fingerprintData == None
            && AfterStartListening(s, replies, "t").isListening
            && AfterStartListeningLive(s, replies, "t").fingerprintData ==
                 Some(FingerprintData(Some("T"), Some("I"), "t"))
  {
    var s := Initial.(scannerStatus := Connected);
    var replies := [Ok(Some("0"), Some("T"), Some("I"))];
    assert FirstDecisive(replies) == 0;
    ListenRecordsFirstCapture(AfterStart(s), replies, "t");
  }

  /** `startListening` as evidently intended: the loop polls while
      listening, as if its guard read the current state. */
  function AfterStartListeningLive(s: State, replies: seq<Reply>, now: string): State {
    if s.scannerStatus != Connected then s
    else Listen(AfterStart(s), true, replies, now)
  }

  /** With the live guard, a connected start polls until the first reply
      other than 30/31, ends with listening off when there is one, and
      stores the capture of that reply when it is a "0". */
  lemma StartListeningLiveCaptures(s: State, replies: seq<Reply>, now: string)
    requires s.scannerStatus == Connected
    ensures var k := FirstDecisive(replies);
            var r := AfterStartListeningLive(s, replies, now);
            && (k < |replies| ==> !r.isListening)
            && (k == |replies| ==> r.isListening)
            && (k < |replies| && Classify(replies[k]).Captured? ==>
                  && r.fingerprintData == Some(FingerprintData(replies[k].template, replies[k].image, now))
                  && r.scanningMessage == CapturedMessage)
            && (!(k < |replies| && Classify(replies[k]).Captured?) ==>
                  r.fingerprintData == s.fingerprintData)
  {
    ListenOutcome(AfterStart(s), replies, now);
  }
}
