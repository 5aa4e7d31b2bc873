/**
 * `Auth.openAuthPopup` and `Auth.startTokenPolling`: after the auth link is
 * clicked, a poller asks the server every ten seconds, at most thirty times,
 * whether the customer has authorised. Each poller has a generation id, kept
 * in `sessionStorage`; a poller whose id is no longer the stored one stops.
 * The check happens before the request is sent; the answer, when it comes, is
 * acted on without a second check. When the answer is `authorized`, the
 * message that needed authorisation is taken out of storage and one resume of
 * the conversation is scheduled.
 *
 * The server's answer to each request is an input; a timer firing is one call
 * of `Check`, an answer arriving one call of `Answer`.
 */
module Polling {
  import opened Wrappers
  import opened Events
  import Session

  const PollingKey: string := "thinkAITokenPollingId"
  const PollingPrefix: string := "polling_"
  const MaxAttempts: nat := 30

  /** The token-status answer: a failed or thrown request, a status other than `authorized`, or `authorized`. */
  datatype Response = Failed | Pending | Authorized

  function DigitChar(d: nat): char
    requires d < 10
  {
    ('0' as int + d) as char
  }

  /** `String(n)` for a natural number: its decimal digits, most significant first. */
  function Decimal(n: nat): (r: string)
    ensures |r| >= 1 && (|r| == 1 <==> n < 10)
  {
    if n < 10 then [DigitChar(n)] else Decimal(n / 10) + [DigitChar(n % 10)]
  }

  /** Distinct numbers are written differently. */
  lemma {:induction false} DecimalInjective(a: nat, b: nat)
    requires Decimal(a) == Decimal(b)
    ensures a == b
    decreases a
  {
    if a >= 10 && b >= 10 {
      var da, db := Decimal(a), Decimal(b);
      assert da[..|da| - 1] == Decimal(a / 10);
      assert db[..|db| - 1] == Decimal(b / 10);
      assert DigitChar(a % 10) == da[|da| - 1] == db[|db| - 1] == DigitChar(b % 10);
      DecimalInjective(a / 10, b / 10);
    }
  }

  /** The id `'polling_' + Date.now()` a poller started at time `now` gets. */
  function PollingId(now: nat): string
  {
    PollingPrefix + Decimal(now)
  }

  /** Pollers started at different milliseconds have different ids. */
  lemma PollingIdInjective(a: nat, b: nat)
    requires PollingId(a) == PollingId(b)
    ensures a == b
  {
    assert PollingId(a)[|PollingPrefix|..] == Decimal(a);
    assert PollingId(b)[|PollingPrefix|..] == Decimal(b);
    DecimalInjective(a, b);
  }

  // ---------------------------------------------------------------------------
  // One poll, in two steps
  // ---------------------------------------------------------------------------

  /** Is `id` the generation in storage? */
  predicate Current(storage: map<string, string>, id: string)
  {
    PollingKey in storage && storage[PollingKey] == id
  }

  /** The pending message, when storage holds a non-empty one. */
  function PendingMessage(storage: map<string, string>): Option<string>
  {
    if LastMessageKey in storage && storage[LastMessageKey] != "" then Some(storage[LastMessageKey]) else None
  }

  /** What the start of a poll decides: stop, or ask the server, having counted the attempt. */
  datatype Check = Stopped | Asking(attempts: nat)

  /**
   * The synchronous start of the `poll` closure, up to the request: poller
   * `id`, with `attempts` made, stops if its generation is no longer stored
   * or its attempts are used up, and otherwise counts one more. It only reads
   * storage.
   */
  function CheckStep(storage: map<string, string>, id: string, attempts: nat): Check
  {
    if !Current(storage, id) || attempts >= MaxAttempts then Stopped else Asking(attempts + 1)
  }

  /** What an answer leaves: the storage, whether another poll is scheduled, and the message whose resume is scheduled. */
  datatype Outcome = Outcome(storage: map<string, string>, again: bool, resume: Option<string>)

  /**
   * The rest of the closure, once the server's answer has arrived. The
   * generation is not looked at again: the answer acts on the storage as it
   * is then, whichever generation it holds.
   */
  function AnswerStep(storage: map<string, string>, response: Response): Outcome
  {
    match response
    case Authorized =>
      var message := PendingMessage(storage);
      var kept := if message.Some? then storage - {LastMessageKey} else storage;
      Outcome(kept - {PollingKey}, false, message)
    case _ => Outcome(storage, true, None)
  }

  /** A poll asks the server exactly when its generation is current and attempts remain, and then counts one attempt. */
  lemma CheckCases(storage: map<string, string>, id: string, attempts: nat)
    ensures CheckStep(storage, id, attempts).Asking? <==> Current(storage, id) && attempts < MaxAttempts
    ensures CheckStep(storage, id, attempts).Asking? ==> CheckStep(storage, id, attempts).attempts == attempts + 1
  {
  }

  /** A poller never makes more than the maximum number of attempts. */
  lemma AttemptsBounded(storage: map<string, string>, id: string, attempts: nat)
    requires attempts <= MaxAttempts
    ensures CheckStep(storage, id, attempts).Asking? ==> CheckStep(storage, id, attempts).attempts <= MaxAttempts
  {
  }

  /**
   * What an answer does: anything but `authorized` leaves storage alone and
   * polls again; `authorized` ends the generation in storage, polls no more,
   * and takes out the pending message, if any, for exactly one resume. No
   * other key changes.
   */
  lemma AnswerCases(storage: map<string, string>, response: Response)
    ensures var o := AnswerStep(storage, response);
      && (o.again <==> response != Authorized)
      && (response != Authorized ==> o.storage == storage && o.resume.None?)
      && (o.resume.Some? <==> response == Authorized && PendingMessage(storage).Some?)
      && (o.resume.Some? ==> o.resume == PendingMessage(storage) && LastMessageKey !in o.storage)
      && (response == Authorized ==> PollingKey !in o.storage && PendingMessage(o.storage).None?)
      && (forall key :: key in storage && key != PollingKey && key != LastMessageKey ==>
            key in o.storage && o.storage[key] == storage[key])
      && (forall key :: key in o.storage ==> key in storage)
  {
  }

  /** Starting a poller at `now` stops, at its next check, every poller started at another time. */
  lemma Superseded(storage: map<string, string>, earlier: nat, now: nat, attempts: nat)
    requires earlier != now
    ensures CheckStep(storage[PollingKey := PollingId(now)], PollingId(earlier), attempts) == Stopped
  {
    if PollingId(earlier) == PollingId(now) {
      PollingIdInjective(earlier, now);
    }
  }

  /**
   * A superseded poller whose request was already on its way when the new
   * generation started is not stopped: an `authorized` answer to it removes
   * the new generation's id, so the new poller stops at its next check.
   */
  lemma StaleAnswerEndsGeneration(storage: map<string, string>, now: nat, attempts: nat)
    ensures var o := AnswerStep(storage[PollingKey := PollingId(now)], Authorized);
      && PollingKey !in o.storage && !o.again
      && CheckStep(o.storage, PollingId(now), attempts) == Stopped
  {
  }

  // ---------------------------------------------------------------------------
  // Runs of polls
  // ---------------------------------------------------------------------------

  /**
   * What changes storage while pollers run: an answer arriving for some
   * poller, current or not, or a new generation started at `now`. Checks only
   * read storage, so they do not appear.
   */
  datatype Event = Answer(response: Response) | Restart(now: nat)

  /** The events, in order: the final storage and the messages whose resumes are scheduled. */
  function RunPolls(storage: map<string, string>, events: seq<Event>): (map<string, string>, seq<string>)
    decreases |events|
  {
    if |events| == 0 then (storage, [])
    else
      var rest := RunPolls(Apply(storage, events[0]).0, events[1..]);
      (rest.0, Apply(storage, events[0]).1 + rest.1)
  }

  /** One event: the storage after it and the resume it schedules, if any. */
  function Apply(storage: map<string, string>, e: Event): (map<string, string>, seq<string>)
  {
    match e
    case Answer(response) =>
      var o := AnswerStep(storage, response);
      (o.storage, if o.resume.Some? then [o.resume.value] else [])
    case Restart(now) => (storage[PollingKey := PollingId(now)], [])
  }

  /** With no message pending, no event schedules a resume and none makes one pending. */
  lemma {:induction false} NoPendingNoResume(storage: map<string, string>, events: seq<Event>)
    requires PendingMessage(storage).None?
    ensures RunPolls(storage, events).1 == []
    decreases |events|
  {
    if |events| > 0 {
      var next := Apply(storage, events[0]).0;
      assert PendingMessage(next).None? && Apply(storage, events[0]).1 == [] by {
        assert |PollingKey| != |LastMessageKey|;
      }
      NoPendingNoResume(next, events[1..]);
    }
  }

  /**
   * However the answers of however many pollers, current or superseded, and
   * any new generations interleave, the conversation is resumed at most once,
   * and only with the message pending at the start.
   */
  lemma {:induction false} AtMostOneResume(storage: map<string, string>, events: seq<Event>)
    ensures |RunPolls(storage, events).1| <= 1
    ensures RunPolls(storage, events).1 != [] ==>
              PendingMessage(storage).Some? && RunPolls(storage, events).1 == [PendingMessage(storage).value]
    decreases |events|
  {
    if |events| > 0 {
      var now := Apply(storage, events[0]);
      if now.1 != [] {
        assert PendingMessage(now.0).None?;
        NoPendingNoResume(now.0, events[1..]);
      } else {
        AtMostOneResume(now.0, events[1..]);
        assert PendingMessage(now.0) == PendingMessage(storage) by {
          assert |PollingKey| != |LastMessageKey|;
        }
      }
    }
  }

  // ---------------------------------------------------------------------------
  // The poller
  // ---------------------------------------------------------------------------

  /**
   * One `startTokenPolling` closure: its generation id, its conversation, its
   * attempt count, whether a poll is scheduled, and whether a request is on
   * its way to the server.
   */
  class Poller {
    const id: string
    const conversationId: string
    var attempts: nat
    var scheduled: bool
    var inFlight: bool

    constructor (id: string, conversationId: string)
      ensures this.id == id && this.conversationId == conversationId
      ensures attempts == 0 && scheduled && !inFlight
    {
      this.id := id;
      this.conversationId := conversationId;
      attempts := 0;
      scheduled := true;
      inFlight := false;
    }

    /** The scheduled `poll` runs up to its request: it stops, or sends the request. */
    method Check(s: Session.ChatSession)
      requires scheduled && !inFlight
      modifies this`attempts, this`scheduled, this`inFlight
      ensures match CheckStep(s.storage, id, old(attempts))
        case Stopped => attempts == old(attempts) && !scheduled && !inFlight
        case Asking(n) => attempts == n && !scheduled && inFlight
    {
      scheduled := false;
      if !(PollingKey in s.storage && s.storage[PollingKey] == id) {
        return;
      }
      if attempts >= MaxAttempts {
        return;
      }
      attempts := attempts + 1;
      inFlight := true;
    }

    /** The server's answer to the request arrives and is acted on, whatever generation storage holds by then. */
    method Answer(s: Session.ChatSession, response: Response)
      requires inFlight
      modifies this`scheduled, this`inFlight, s`storage, s`resumes
      ensures var o := AnswerStep(old(s.storage), response);
        && s.storage == o.storage && !inFlight && scheduled == o.again
        && s.resumes == old(s.resumes) + (if o.resume.Some? then [o.resume.value] else [])
    {
      inFlight := false;
      if response != Authorized {
        scheduled := true;
        return;
      }
      if LastMessageKey in s.storage && s.storage[LastMessageKey] != "" {
        var message := s.storage[LastMessageKey];
        s.storage := s.storage - {LastMessageKey};
        s.resumes := s.resumes + [message];
      }
      s.storage := s.storage - {PollingKey};
      scheduled := false;
    }
  }

  /** `startTokenPolling`: nothing without a conversation; otherwise a new generation and its first poll. */
  method StartTokenPolling(s: Session.ChatSession, conversationId: string, now: nat) returns (p: Poller?)
    modifies s`storage
    ensures conversationId == "" ==> p == null && s.storage == old(s.storage)
    ensures conversationId != "" ==>
      && p != null && fresh(p) && p.id == PollingId(now) && p.conversationId == conversationId
      && p.attempts == 0 && p.scheduled && !p.inFlight
      && s.storage == old(s.storage)[PollingKey := PollingId(now)]
  {
    if conversationId == "" {
      return null;
    }
    var id := PollingId(now);
    s.storage := s.storage[PollingKey := id];
    p := new Poller(id, conversationId);
  }

  /**
   * `openAuthPopup` without the popup: with a stored conversation, the
   * customer is told to finish in the popup and polling starts.
   */
  method OpenAuthPopup(s: Session.ChatSession, now: nat) returns (p: Poller?)
    modifies s`items, s`formatted, s`storage
    ensures var c := if ConversationKey in old(s.storage) then old(s.storage)[ConversationKey] else "";
      && (c == "" ==> p == null && s.Model() == old(s.Model()))
      && (c != "" ==>
            && s.Model() == Events.AddMessage(old(s.Model()), s.notices.authProgress, Assistant)
                              .(storage := old(s.storage)[PollingKey := PollingId(now)])
            && p != null && fresh(p) && p.id == PollingId(now) && p.conversationId == c
            && p.attempts == 0 && p.scheduled && !p.inFlight)
  {
    var c := if ConversationKey in s.storage then s.storage[ConversationKey] else "";
    if c == "" {
      return null;
    }
    s.AddMessage(s.notices.authProgress, Assistant);
    p := StartTokenPolling(s, c, now);
  }

  /**
   * A click on an auth trigger: without a remembered auth url nothing
   * happens; with one, the popup opens and polling starts as `OpenAuthPopup`
   * says.
   */
  method AuthTriggerClicked(s: Session.ChatSession, now: nat) returns (p: Poller?)
    modifies s`items, s`formatted, s`storage
    ensures var url := AuthUrl(old(s.Model()));
      var c := if ConversationKey in old(s.storage) then old(s.storage)[ConversationKey] else "";
      if url.None? || url.value == "" || c == "" then p == null && s.Model() == old(s.Model())
      else
        && s.Model() == Events.AddMessage(old(s.Model()), s.notices.authProgress, Assistant)
                          .(storage := old(s.storage)[PollingKey := PollingId(now)])
        && p != null && fresh(p) && p.id == PollingId(now) && p.conversationId == c
        && p.attempts == 0 && p.scheduled && !p.inFlight
  {
    var url := AuthUrl(s.Model());
    if url.None? || url.value == "" {
      return null;
    }
    p := OpenAuthPopup(s, now);
  }
}
