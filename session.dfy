/**
 * The chat window as one object: the messages container (items, the current
 * stream bubble and the typing indicators), `sessionStorage`, the texts
 * formatted so far (from which the auth url is read), the stream's line
 * buffer, the input area and its order-tracking mode. Each method is one
 * handler of the widget and is proved against the functions of `Events` and
 * the routing function below.
 *
 * `requests` records each message handed to `API.streamResponse`, in order;
 * `trackingTimers` counts the scheduled `Order Tracking` callbacks and
 * `resumes` the scheduled resumes of a conversation after authorisation.
 */
module Session {
  import opened Wrappers
  import opened Text
  import opened Events

  const TrackingPrompt: string := "Please provide your order number and email address to track your order."
  const TrackingIncomplete: string := "Please provide both order number and email address."
  const TrackingKeyword: string := "order tracking"
  const TrackingLabel: string := "Order Tracking"
  const ResumeText: string := "Authorization successful! I'm now continuing with your request."
  const AuthProgressText: string := "Authentication in progress. Please complete the process in the popup window."

  /**
   * The fixed texts the assistant shows. A window holds them as a constant
   * set by its constructor, so that what is said about its handlers does not
   * depend on the letters of each text.
   */
  datatype Notices = Notices(trackingPrompt: string, trackingIncomplete: string, resume: string,
                             failure: string, authProgress: string)

  const WidgetNotices: Notices := Notices(TrackingPrompt, TrackingIncomplete, ResumeText, FailureText, AuthProgressText)

  /** The message the order-tracking form sends. */
  function TrackingRequest(orderNumber: string, email: string): string
  {
    "Order Tracking Request: Order No. " + orderNumber + ", Email: " + email
  }

  /** `Message.send`'s guard: the trimmed value, or nothing when it is all whitespace. */
  function Outgoing(value: string): (r: Option<string>)
    ensures r.None? <==> IsBlank(value)
    ensures r.Some? ==> r.value != "" && !IsSpace(r.value[0]) && !IsSpace(Last(r.value))
  {
    TrimEmptyIffBlank(value);
    TrimmedEnds(value);
    var t := Trim(value);
    if t == "" then None else Some(t)
  }

  /** What is sent is the value without its blank ends. */
  lemma OutgoingIsSlice(value: string)
    requires !IsBlank(value)
    ensures exists k: nat :: Padded(value, Outgoing(value).value, k)
  {
    TrimEmptyIffBlank(value);
    TrimIsSlice(value);
    var k: nat := |value| - |TrimStart(value)|;
    assert Outgoing(value) == Some(Trim(value));
    assert Padded(value, Trim(value), k);
  }

  /** What `handleSendNewMessage` does with the input area as it stands. */
  datatype Action =
    | Ignore                     // the textarea is blank
    | AskBoth                    // a tracking field is blank
    | Track(request: string)     // the tracking form is complete
    | ScheduleTracking           // the message mentions order tracking
    | SendInput                  // an ordinary message

  function Route(trackingMode: bool, input: string, orderNumber: string, email: string): Action
  {
    if trackingMode then
      var o, e := Trim(orderNumber), Trim(email);
      if o == "" || e == "" then AskBoth else Track(TrackingRequest(o, e))
    else if Trim(input) == "" then Ignore
    else if Contains(Lower(input), TrackingKeyword) then ScheduleTracking
    else SendInput
  }

  /**
   * The routing in words: in tracking mode the form is refused exactly when a
   * field is blank, and a complete form becomes the request built from the
   * trimmed fields, which the send guard passes through unchanged; otherwise a
   * blank message is ignored, and a message is turned into the tracking form
   * exactly when its lower-cased text mentions order tracking.
   */
  lemma RouteCases(trackingMode: bool, input: string, orderNumber: string, email: string)
    ensures var r := Route(trackingMode, input, orderNumber, email);
      && (r == AskBoth <==> trackingMode && (IsBlank(orderNumber) || IsBlank(email)))
      && (r.Track? <==> trackingMode && !IsBlank(orderNumber) && !IsBlank(email))
      && (r.Track? ==> r.request == TrackingRequest(Trim(orderNumber), Trim(email))
                       && Outgoing(r.request) == Some(r.request))
      && (r == Ignore <==> !trackingMode && IsBlank(input))
      && (r == ScheduleTracking <==> !trackingMode && !IsBlank(input) && Contains(Lower(input), TrackingKeyword))
      && (r == SendInput <==> !trackingMode && !IsBlank(input) && !Contains(Lower(input), TrackingKeyword))
  {
    TrimEmptyIffBlank(orderNumber);
    TrimEmptyIffBlank(email);
    TrimEmptyIffBlank(input);
    if trackingMode && !IsBlank(orderNumber) && !IsBlank(email) {
      TrackingRequestTrimmed(Trim(orderNumber), Trim(email));
    }
  }

  /** A request built from a non-blank email has no whitespace at its ends. */
  lemma TrackingRequestTrimmed(orderNumber: string, email: string)
    requires email != "" && !IsSpace(Last(email))
    ensures Outgoing(TrackingRequest(orderNumber, email)) == Some(TrackingRequest(orderNumber, email))
  {
    var m := TrackingRequest(orderNumber, email);
    assert m[0] == 'O';
    assert Last(m) == Last(email);
    TrimNoop(m);
  }

  class ChatSession {
    var items: seq<Item>
    var current: nat
    var typing: nat
    var storage: map<string, string>
    var formatted: seq<string>
    var buffer: string
    var streamMessage: string
    var input: string
    var orderNumber: string
    var email: string
    var trackingMode: bool
    var trackingTimers: nat
    var resumes: seq<string>
    var requests: seq<string>
    const notices: Notices

    /** The conversation as `Events` sees it. */
    function Model(): ChatState
      reads this
    {
      ChatState(items, current, typing, storage, formatted)
    }

    /** A fresh window: nothing shown, nothing stored, the normal input. */
    constructor (storage0: map<string, string>)
      ensures Model() == ChatState([], 0, 0, storage0, [])
      ensures buffer == "" && input == "" && !trackingMode && trackingTimers == 0
      ensures resumes == [] && requests == [] && notices == WidgetNotices
    {
      notices := WidgetNotices;
      items, current, typing, storage, formatted := [], 0, 0, storage0, [];
      buffer, streamMessage, input, orderNumber, email := "", "", "", "", "";
      trackingMode, trackingTimers, resumes, requests := false, 0, [], [];
    }

    /** `UI.showTypingIndicator`: one more indicator, every time. */
    method ShowTypingIndicator()
      modifies this`typing
      ensures typing == old(typing) + 1
    {
      typing := typing + 1;
    }

    /** `UI.removeTypingIndicator`: the first indicator goes, if there is one. */
    method RemoveTypingIndicator()
      modifies this`typing
      ensures typing == RemoveOne(old(typing))
    {
      if typing > 0 {
        typing := typing - 1;
      }
    }

    /** `Formatting.formatMessageContent` on the bubble at `k`. */
    method FormatAt(k: nat)
      requires k < |items| && items[k].Bubble?
      modifies this`items, this`formatted
      ensures Model() == FormatMessage(old(Model()), k)
    {
      var b := items[k];
      if b.rawText != "" {
        items := items[k := b.(display := Formatted(b.rawText))];
        formatted := formatted + [b.rawText];
      }
    }

    /** `Message.add`. */
    method AddMessage(text: string, sender: Sender)
      modifies this`items, this`formatted
      ensures Model() == Events.AddMessage(old(Model()), text, sender)
    {
      items := items + [NewBubble(text, sender)];
      if text != LoaderText && sender == Assistant {
        FormatAt(|items| - 1);
      }
    }

    /**
     * `Message.send` with the textarea: a blank value changes nothing;
     * otherwise the trimmed text is shown as the user's, the textarea is
     * cleared, an indicator is shown and the message is streamed.
     */
    method SendInput()
      modifies this`items, this`formatted, this`input, this`typing, this`requests
      ensures match Outgoing(old(input))
        case None => Model() == old(Model()) && input == old(input) && requests == old(requests)
        case Some(m) =>
          && Model() == Events.AddMessage(old(Model()), m, User).(typing := old(typing) + 1)
          && input == "" && requests == old(requests) + [m]
    {
      var m := Outgoing(input);
      if m.None? {
        return;
      }
      AddMessage(m.value, User);
      input := "";
      ShowTypingIndicator();
      requests := requests + [m.value];
    }

    /**
     * `Message.send` called with a plain `{value: m}` object, as the tracking
     * form does: after the user's bubble is added and `value` cleared, the
     * assignment to the object's missing `style` throws, so the rest of the
     * handler (the indicator and the stream) never runs.
     */
    method SendValue(value: string)
      modifies this`items, this`formatted
      ensures match Outgoing(value)
        case None => Model() == old(Model())
        case Some(m) => Model() == Events.AddMessage(old(Model()), m, User)
    {
      var m := Outgoing(value);
      if m.Some? {
        AddMessage(m.value, User);
      }
    }

    /** The response of a stream arrived: its empty bubble is appended and becomes current. */
    method OpenStream(message: string)
      modifies this`items, this`current, this`buffer, this`streamMessage
      ensures Model() == Events.OpenStream(old(Model()))
      ensures buffer == "" && streamMessage == message
    {
      OpenBubble();
      buffer := "";
      streamMessage := message;
    }

    /** `streamResponse`'s catch: the indicator goes and an apology is added. */
    method StreamFailed()
      modifies this`items, this`formatted, this`typing
      ensures Model() == Events.AddMessage(old(Model()).(typing := RemoveOne(old(typing))), notices.failure, Assistant)
    {
      RemoveTypingIndicator();
      AddMessage(notices.failure, Assistant);
    }

    /** `API.handleStreamEvent` for one record's parsed data; a parse error is skipped. */
    method HandleEvent(p: Payload)
      requires Streaming(Model())
      modifies this`items, this`current, this`typing, this`storage, this`formatted
      ensures Streaming(Model())
      ensures Model() == Step(old(Model()), p, streamMessage)
    {
      if p.Malformed? {
        return;
      }
      var ev := p.event;
      if ev.Chunk? {
        OnChunk(ev.chunk);
      } else if ev == MessageComplete {
        OnMessageComplete();
      } else if ev == Error || ev == RateLimitExceeded {
        OnNotice(ev);
      } else if ev == NewMessage {
        OnNewMessage();
      } else {
        OnBookkeeping(ev);
      }
    }

    /** `chunk`: an indicator goes and the current bubble's raw text grows and is shown as it is. */
    method OnChunk(c: string)
      requires Streaming(Model())
      modifies this`items, this`typing
      ensures Model() == Handle(old(Model()), Chunk(c), streamMessage)
    {
      RemoveTypingIndicator();
      var b := items[current];
      items := items[current := b.(rawText := b.rawText + c, display := Text(b.rawText + c))];
    }

    /** `message_complete`: an indicator goes and the current bubble is formatted. */
    method OnMessageComplete()
      requires Streaming(Model())
      modifies this`items, this`typing, this`formatted
      ensures Model() == Handle(old(Model()), MessageComplete, streamMessage)
    {
      RemoveTypingIndicator();
      FormatAt(current);
    }

    /** `error` and `rate_limit_exceeded`: an indicator goes and the current bubble shows the notice. */
    method OnNotice(ev: StreamEvent)
      requires Streaming(Model()) && (ev == Error || ev == RateLimitExceeded)
      modifies this`items, this`typing
      ensures Model() == Handle(old(Model()), ev, streamMessage)
    {
      RemoveTypingIndicator();
      var notice := if ev == Error then FailureText else BusyText;
      items := items[current := items[current].(display := Text(notice))];
    }

    /** `new_message`: the current bubble is formatted, an indicator shown, and a fresh bubble becomes current. */
    method OnNewMessage()
      requires Streaming(Model())
      modifies this`items, this`current, this`typing, this`formatted
      ensures Model() == Handle(old(Model()), NewMessage, streamMessage)
    {
      FormatAt(current);
      ShowTypingIndicator();
      OpenBubble();
    }

    /** An empty assistant bubble is appended and becomes current. */
    method OpenBubble()
      modifies this`items, this`current
      ensures Model() == Events.OpenStream(old(Model()))
    {
      items := items + [EmptyBubble];
      current := |items| - 1;
    }

    /** The events that touch neither the current bubble's text nor its display. */
    method OnBookkeeping(ev: StreamEvent)
      requires Streaming(Model())
      requires !ev.Chunk? && ev !in {MessageComplete, Error, RateLimitExceeded, NewMessage}
      modifies this`items, this`typing, this`storage
      ensures Model() == Handle(old(Model()), ev, streamMessage)
    {
      match ev {
        case Id(c) =>
          if c != "" {
            storage := storage[ConversationKey := c];
          }
        case EndTurn =>
          RemoveTypingIndicator();
        case AuthRequired =>
          storage := storage[LastMessageKey := streamMessage];
        case ProductResults(ps) =>
          items := items + [Products(ps)];
        case ContentBlockComplete =>
          ShowTypingIndicator();
        case ToolUse(_) =>
        case Unrecognised(_) =>
      }
    }

    /**
     * One read of `streamResponse`'s loop: the decoded text joins the buffer,
     * the last piece becomes the new buffer, and every other piece is
     * dispatched in order.
     */
    method OnRead(decoded: string, parse: string -> Payload)
      requires Streaming(Model())
      modifies this`items, this`current, this`typing, this`storage, this`formatted, this`buffer
      ensures Streaming(Model())
      ensures (Model(), buffer) == FeedRead(old(Model()), old(buffer), decoded, parse, streamMessage)
    {
      var text := buffer + decoded;
      var pieces := Split(text, RecordSeparator);
      var records := AllButLast(pieces);
      assert records == Records(text);
      for i := 0 to |records|
        invariant Streaming(Model())
        invariant Model() == DispatchAll(old(Model()), records[..i], parse, streamMessage)
      {
        DispatchPrefix(old(Model()), records, i, parse, streamMessage);
        if StartsWith(records[i], DataPrefix) {
          HandleEvent(parse(records[i][|DataPrefix|..]));
        }
      }
      assert records[..|records|] == records;
      buffer := Last(pieces);
    }

    /**
     * `handleSendNewMessage`, as routed: a blank textarea does nothing, an
     * incomplete tracking form is answered with a hint, a complete one is
     * submitted as the source does it (shown twice, never streamed), a message
     * about order tracking schedules the switch to the tracking form, and any
     * other message is sent.
     */
    method HandleSendNewMessage()
      modifies this`items, this`formatted, this`typing, this`requests, this`trackingMode, this`input, this`trackingTimers
      ensures match Route(old(trackingMode), old(input), old(orderNumber), old(email))
        case Ignore =>
          && Model() == old(Model()) && input == old(input) && requests == old(requests)
          && trackingMode == old(trackingMode) && trackingTimers == old(trackingTimers)
        case AskBoth =>
          && Model() == Events.AddMessage(old(Model()), notices.trackingIncomplete, Assistant)
          && trackingMode && input == old(input) && requests == old(requests) && trackingTimers == old(trackingTimers)
        case Track(m) =>
          && Model() == Events.AddMessage(Events.AddMessage(old(Model()), m, User), m, User)
          && typing == old(typing) && requests == old(requests)
          && !trackingMode && input == "" && trackingTimers == old(trackingTimers)
        case ScheduleTracking =>
          && Model() == old(Model()) && trackingTimers == old(trackingTimers) + 1 && requests == old(requests)
          && input == old(input) && trackingMode == old(trackingMode)
        case SendInput =>
          && Model() == Events.AddMessage(old(Model()), Trim(old(input)), User).(typing := old(typing) + 1)
          && input == "" && requests == old(requests) + [Trim(old(input))]
          && trackingMode == old(trackingMode) && trackingTimers == old(trackingTimers)
    {
      var action := Route(trackingMode, input, orderNumber, email);
      RouteCases(trackingMode, input, orderNumber, email);
      match action {
        case Ignore =>
        case AskBoth =>
          AddMessage(notices.trackingIncomplete, Assistant);
        case Track(m) =>
          SubmitTrackingAsWritten(m);
        case ScheduleTracking =>
          trackingTimers := trackingTimers + 1;
        case SendInput =>
          SendInput();
      }
    }

    /**
     * The tracking form's submission as intended: the request is shown once
     * as the user's, the normal input comes back, and the request is streamed.
     */
    method SubmitTracking(m: string)
      requires Outgoing(m) == Some(m)
      modifies this`items, this`formatted, this`typing, this`requests, this`trackingMode, this`input
      ensures Model() == Events.AddMessage(old(Model()), m, User).(typing := old(typing) + 1)
      ensures !trackingMode && input == "" && requests == old(requests) + [m]
    {
      AddMessage(m, User);
      SwitchToNormalChatInput();
      ShowTypingIndicator();
      requests := requests + [m];
    }

    /**
     * The tracking form's submission as written: the request is added as the
     * user's, the normal input comes back, and `Message.send` is handed a
     * plain object, which adds the request a second time and then throws.
     */
    method SubmitTrackingAsWritten(m: string)
      requires Outgoing(m) == Some(m)
      modifies this`items, this`formatted, this`trackingMode, this`input
      ensures Model() == Events.AddMessage(Events.AddMessage(old(Model()), m, User), m, User)
      ensures !trackingMode && input == ""
      ensures requests == old(requests) && typing == old(typing)
    {
      AddMessage(m, User);
      SwitchToNormalChatInput();
      SendValue(m);
    }

    /** The scheduled `Order Tracking` callback: the user's choice is shown and the form appears. */
    method TrackingTimerFired()
      requires trackingTimers > 0
      modifies this`items, this`formatted, this`trackingMode, this`orderNumber, this`email, this`trackingTimers
      ensures trackingTimers == old(trackingTimers) - 1
      ensures Model() == Events.AddMessage(Events.AddMessage(old(Model()), TrackingLabel, User), notices.trackingPrompt, Assistant)
      ensures trackingMode && orderNumber == "" && email == ""
    {
      trackingTimers := trackingTimers - 1;
      AddMessage(TrackingLabel, User);
      SwitchToOrderTrackingInput();
    }

    /** `switchToOrderTrackingInput`: empty tracking fields replace the textarea and the form is explained. */
    method SwitchToOrderTrackingInput()
      modifies this`items, this`formatted, this`trackingMode, this`orderNumber, this`email
      ensures Model() == Events.AddMessage(old(Model()), notices.trackingPrompt, Assistant)
      ensures trackingMode && orderNumber == "" && email == ""
    {
      trackingMode := true;
      orderNumber, email := "", "";
      AddMessage(notices.trackingPrompt, Assistant);
    }

    /** `switchToNormalChatInput`: an empty textarea replaces the form. */
    method SwitchToNormalChatInput()
      modifies this`trackingMode, this`input
      ensures !trackingMode && input == ""
    {
      trackingMode := false;
      input := "";
    }

    /**
     * The resume scheduled by an authorised poll: the first pending message is
     * announced, streamed again, and an indicator is shown.
     */
    method ResumeFired()
      requires |resumes| > 0
      modifies this`items, this`formatted, this`typing, this`requests, this`resumes
      ensures resumes == old(resumes[1..]) && requests == old(requests) + [old(resumes[0])]
      ensures Model() == Events.AddMessage(old(Model()), notices.resume, Assistant).(typing := old(typing) + 1)
    {
      var m := resumes[0];
      resumes := resumes[1..];
      AddMessage(notices.resume, Assistant);
      requests := requests + [m];
      ShowTypingIndicator();
    }
  }

  /**
   * The tracking submission as written shows the request in two bubbles where
   * the intended one shows it in one.
   */
  lemma TrackingShownTwice(st: ChatState, m: string)
    requires Outgoing(m) == Some(m) && m != LoaderText
    ensures var twice := Events.AddMessage(Events.AddMessage(st, m, User), m, User);
      var once := Events.AddMessage(st, m, User);
      && |twice.items| == |st.items| + 2 && |once.items| == |st.items| + 1
      && twice.items[|st.items|] == twice.items[|st.items| + 1] == Bubble(User, m, Html("<p>" + m + "</p>"))
  {
  }

  /** The records handled after `i + 1` steps are those after `i` and then one more. */
  lemma DispatchPrefix(st: ChatState, records: seq<string>, i: nat, parse: string -> Payload, userMessage: string)
    requires Streaming(st) && i < |records|
    ensures DispatchAll(st, records[..i + 1], parse, userMessage)
            == Dispatch(DispatchAll(st, records[..i], parse, userMessage), records[i], parse, userMessage)
  {
    assert AllButLast(records[..i + 1]) == records[..i];
  }
}
