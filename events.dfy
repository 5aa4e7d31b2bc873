/**
 * The chat's conversation state and how the streamed answer changes it:
 * `API.handleStreamEvent` for one event, and the record splitting of
 * `API.streamResponse` that turns decoded text into events.
 *
 * The messages container is a sequence of items; the typing indicators in it
 * are a count; `sessionStorage` is a map. Formatting a message sets
 * `window.thinkAIAuthUrl` to the url of its last auth link, if it has one;
 * the state keeps the raw texts formatted so far and the url is derived from
 * them (`AuthUrl`). `JSON.parse` is a parameter of the record functions.
 */
module Events {
  import opened Wrappers
  import opened Text
  import Links
  import Markdown

  const ConversationKey: string := "thinkAIConversationId"
  const LastMessageKey: string := "thinkAILastMessage"
  const FailureText: string := "Sorry, I couldn't process your request. Please try again later."
  const BusyText: string := "Sorry, our servers are currently busy. Please try again later."
  const LoaderText: string := "thinking_loader"
  const DataPrefix: string := "data: "
  const RecordSeparator: string := "\n\n"

  datatype Sender = User | Assistant

  /**
   * What a bubble shows: plain text (`textContent`), an `innerHTML`, the html
   * that `formatMessageContent` makes of a raw text, or the loading dots. The
   * formatted html is `InnerHtml` of the display.
   */
  datatype Display = Text(text: string) | Html(html: string) | Formatted(raw: string) | Loader

  /** The bubble's `innerHTML`, for the displays that set one. */
  function InnerHtml(d: Display): Option<string>
  {
    match d
    case Html(h) => Some(h)
    case Formatted(raw) => Some(Markdown.MarkdownHtml(Links.RewriteLinks(raw).0))
    case _ => None
  }

  /** One product record of a `product_results` event, as the server sent it. */
  datatype Product = Product(record: string)

  /** A message bubble (with its `dataset.rawText`) or a product section. */
  datatype Item =
    | Bubble(sender: Sender, rawText: string, display: Display)
    | Products(products: seq<Product>)

  datatype ChatState = ChatState(
    items: seq<Item>,
    current: nat,
    typing: nat,
    storage: map<string, string>,
    formatted: seq<string>)

  /** A parsed stream event, by its `type` field. */
  datatype StreamEvent =
    | Id(conversationId: string)
    | Chunk(chunk: string)
    | MessageComplete
    | EndTurn
    | Error
    | RateLimitExceeded
    | AuthRequired
    | ProductResults(products: seq<Product>)
    | ToolUse(toolUseMessage: string)
    | NewMessage
    | ContentBlockComplete
    | Unrecognised(kind: string)

  /** The outcome of `JSON.parse` on a record's data. */
  datatype Payload = Malformed | Parsed(event: StreamEvent)

  /** While a stream runs, its current message is an assistant bubble of the container. */
  predicate Streaming(st: ChatState)
  {
    st.current < |st.items| && st.items[st.current].Bubble?
  }

  // ---------------------------------------------------------------------------
  // The typing indicator and message bubbles
  // ---------------------------------------------------------------------------

  /** `removeTypingIndicator`: the first indicator, if there is one, is removed. */
  function RemoveOne(typing: nat): (r: nat)
    ensures typing > 0 ==> r + 1 == typing
    ensures typing == 0 ==> r == 0
  {
    if typing > 0 then typing - 1 else 0
  }

  /**
   * `Formatting.formatMessageContent` on the bubble at `k`: nothing happens to
   * a bubble with an empty raw text; otherwise it shows its raw text with the
   * links rewritten and the markdown converted (`InnerHtml`), and the raw text
   * joins the formatted ones, from which `AuthUrl` is read.
   */
  function FormatMessage(st: ChatState, k: nat): ChatState
    requires k < |st.items| && st.items[k].Bubble?
  {
    var b := st.items[k];
    if b.rawText == "" then st
    else
      st.(items := st.items[k := b.(display := Formatted(b.rawText))], formatted := st.formatted + [b.rawText])
  }

  /** The last url that is set, if any. */
  function LastSet(urls: seq<Option<string>>): Option<string>
    decreases |urls|
  {
    if |urls| == 0 then None
    else if Last(urls).Some? then Last(urls) else LastSet(AllButLast(urls))
  }

  /** `LastSet` is unset exactly when no url is set; otherwise it is the last one that is. */
  lemma {:induction false} LastSetIsLast(urls: seq<Option<string>>)
    ensures LastSet(urls).None? <==> forall k :: 0 <= k < |urls| ==> urls[k].None?
    ensures LastSet(urls).Some? ==>
      exists k :: 0 <= k < |urls| && urls[k] == LastSet(urls) && forall i :: k < i < |urls| ==> urls[i].None?
    decreases |urls|
  {
    if |urls| > 0 {
      var pre := AllButLast(urls);
      LastSetIsLast(pre);
      if Last(urls).Some? {
        assert urls[|urls| - 1] == LastSet(urls);
      } else if LastSet(pre).Some? {
        var k :| 0 <= k < |pre| && pre[k] == LastSet(pre) && forall i :: k < i < |pre| ==> pre[i].None?;
        assert urls[k] == pre[k];
      }
    }
  }

  /** The auth url, if any, that formatting each text sets. */
  function AuthUrls(texts: seq<string>): (r: seq<Option<string>>)
    ensures |r| == |texts|
  {
    seq(|texts|, i requires 0 <= i < |texts| => Links.RewriteLinks(texts[i]).1)
  }

  /** `window.thinkAIAuthUrl`: unset until a formatted message holds an auth link. */
  function AuthUrl(st: ChatState): Option<string>
  {
    LastSet(AuthUrls(st.formatted))
  }

  /** The bubble `Message.add` creates, before any formatting. */
  function NewBubble(text: string, sender: Sender): Item
  {
    if text == LoaderText then Bubble(sender, text, Loader)
    else match sender
      case User => Bubble(User, text, Html("<p>" + text + "</p>"))
      case Assistant => Bubble(Assistant, text, Text(""))
  }

  /** `Message.add`: a bubble is appended; an assistant's is formatted. */
  function AddMessage(st: ChatState, text: string, sender: Sender): ChatState
  {
    var added := st.(items := st.items + [NewBubble(text, sender)]);
    if text != LoaderText && sender == Assistant then FormatMessage(added, |st.items|) else added
  }

  /** The empty bubble that `streamResponse` and `new_message` append. */
  const EmptyBubble: Item := Bubble(Assistant, "", Text(""))

  /** A stream's first response: its empty bubble is appended and becomes current. */
  function OpenStream(st: ChatState): (r: ChatState)
    ensures Streaming(r)
  {
    st.(items := st.items + [EmptyBubble], current := |st.items|)
  }

  // ---------------------------------------------------------------------------
  // One event
  // ---------------------------------------------------------------------------

  /** `API.handleStreamEvent`: the effect of one parsed event on the conversation. */
  function Handle(st: ChatState, ev: StreamEvent, userMessage: string): (r: ChatState)
    requires Streaming(st)
    ensures Streaming(r)
  {
    var b := st.items[st.current];
    match ev
    case Id(c) => if c != "" then st.(storage := st.storage[ConversationKey := c]) else st
    case Chunk(c) =>
      var raw := b.rawText + c;
      st.(typing := RemoveOne(st.typing), items := st.items[st.current := b.(rawText := raw, display := Text(raw))])
    case MessageComplete => FormatMessage(st.(typing := RemoveOne(st.typing)), st.current)
    case EndTurn => st.(typing := RemoveOne(st.typing))
    case Error =>
      st.(typing := RemoveOne(st.typing), items := st.items[st.current := b.(display := Text(FailureText))])
    case RateLimitExceeded =>
      st.(typing := RemoveOne(st.typing), items := st.items[st.current := b.(display := Text(BusyText))])
    case AuthRequired => st.(storage := st.storage[LastMessageKey := userMessage])
    case ProductResults(ps) => st.(items := st.items + [Products(ps)])
    // a non-empty tool message calls the removed `addToolUse` and throws before any change
    case ToolUse(_) => st
    case NewMessage =>
      var f := FormatMessage(st, st.current);
      OpenStream(f.(typing := f.typing + 1))
    case ContentBlockComplete => st.(typing := st.typing + 1)
    case Unrecognised(_) => st
  }

  /** One record's data after `JSON.parse`: a parse error is caught and the record skipped. */
  function Step(st: ChatState, p: Payload, userMessage: string): (r: ChatState)
    requires Streaming(st)
    ensures Streaming(r)
  {
    match p
    case Malformed => st
    case Parsed(ev) => Handle(st, ev, userMessage)
  }

  // ---------------------------------------------------------------------------
  // Records
  // ---------------------------------------------------------------------------

  /** One record: only one starting with `data: ` is parsed, without that prefix. */
  function Dispatch(st: ChatState, record: string, parse: string -> Payload, userMessage: string): (r: ChatState)
    requires Streaming(st)
    ensures Streaming(r)
  {
    if StartsWith(record, DataPrefix) then Step(st, parse(record[|DataPrefix|..]), userMessage) else st
  }

  /** The records of one read, handled in order. */
  function DispatchAll(st: ChatState, records: seq<string>, parse: string -> Payload, userMessage: string): (r: ChatState)
    requires Streaming(st)
    ensures Streaming(r)
    decreases |records|
  {
    if |records| == 0 then st
    else Dispatch(DispatchAll(st, AllButLast(records), parse, userMessage), Last(records), parse, userMessage)
  }

  /** The complete records in `text`: every piece but the last. */
  function Records(text: string): seq<string>
  {
    AllButLast(Split(text, RecordSeparator))
  }

  /** What stays in the buffer: the last piece, which has no separator after it. */
  function Rest(text: string): string
  {
    Last(Split(text, RecordSeparator))
  }

  /** One read of the loop: the decoded text joins the buffer, the complete records are handled. */
  function FeedRead(st: ChatState, buffer: string, decoded: string, parse: string -> Payload, userMessage: string)
    : (r: (ChatState, string))
    requires Streaming(st)
    ensures Streaming(r.0)
  {
    (DispatchAll(st, Records(buffer + decoded), parse, userMessage), Rest(buffer + decoded))
  }

  /** A sequence of texts, the last one last. */
  function FeedReads(st: ChatState, buffer: string, texts: seq<string>, parse: string -> Payload, userMessage: string)
    : (r: (ChatState, string))
    requires Streaming(st)
    ensures Streaming(r.0)
    decreases |texts|
  {
    if |texts| == 0 then (st, buffer)
    else
      var before := FeedReads(st, buffer, AllButLast(texts), parse, userMessage);
      FeedRead(before.0, before.1, Last(texts), parse, userMessage)
  }

  // ---------------------------------------------------------------------------
  // Properties of the record splitting
  // ---------------------------------------------------------------------------

  /**
   * Splitting loses nothing: the records and the new buffer, joined with the
   * separator, give back the buffered text. The new buffer holds no separator,
   * so an incomplete record is never handled; no record holds one either.
   */
  lemma RecordsRoundTrip(text: string)
    ensures Join(Records(text) + [Rest(text)], RecordSeparator) == text
    ensures !Contains(Rest(text), RecordSeparator)
    ensures forall k :: 0 <= k < |Records(text)| ==> !Contains(Records(text)[k], RecordSeparator)
  {
    var pieces := Split(text, RecordSeparator);
    SplitJoin(text, RecordSeparator);
    SplitPiecesFree(text, RecordSeparator);
    assert Records(text) + [Rest(text)] == pieces;
  }

  /** Handling two runs of records is handling the first, then the second. */
  lemma {:induction false} DispatchAppend(st: ChatState, a: seq<string>, b: seq<string>, parse: string -> Payload, userMessage: string)
    requires Streaming(st)
    ensures DispatchAll(st, a + b, parse, userMessage) == DispatchAll(DispatchAll(st, a, parse, userMessage), b, parse, userMessage)
    decreases |b|
  {
    if |b| == 0 {
      assert a + b == a;
    } else {
      assert AllButLast(a + b) == a + AllButLast(b);
      assert Last(a + b) == Last(b);
      DispatchAppend(st, a, AllButLast(b), parse, userMessage);
    }
  }

  /** Data that changes nothing: a parse error, a tool-use event, or an unrecognised type. */
  predicate Inert(p: Payload)
  {
    p.Malformed? || p.event.ToolUse? || p.event.Unrecognised?
  }

  /** A record that is not a data record, or whose data is inert. */
  predicate Ignored(record: string, parse: string -> Payload)
  {
    !StartsWith(record, DataPrefix) || Inert(parse(record[|DataPrefix|..]))
  }

  /**
   * An ignored record is skipped without a trace: the records before and after
   * it are handled exactly as if it were not there.
   */
  lemma SkipIgnored(st: ChatState, a: seq<string>, x: string, b: seq<string>, parse: string -> Payload, userMessage: string)
    requires Streaming(st) && Ignored(x, parse)
    ensures DispatchAll(st, a + [x] + b, parse, userMessage) == DispatchAll(st, a + b, parse, userMessage)
  {
    DispatchAppend(st, a + [x], b, parse, userMessage);
    DispatchAppend(st, a, [x], parse, userMessage);
    DispatchAppend(st, a, b, parse, userMessage);
    var s := DispatchAll(st, a, parse, userMessage);
    DispatchOne(s, x, parse, userMessage);
    IgnoredDispatch(s, x, parse, userMessage);
  }

  lemma DispatchOne(s: ChatState, x: string, parse: string -> Payload, userMessage: string)
    requires Streaming(s)
    ensures DispatchAll(s, [x], parse, userMessage) == Dispatch(s, x, parse, userMessage)
  {
    assert AllButLast([x]) == [] && Last([x]) == x;
  }

  lemma IgnoredDispatch(s: ChatState, x: string, parse: string -> Payload, userMessage: string)
    requires Streaming(s) && Ignored(x, parse)
    ensures Dispatch(s, x, parse, userMessage) == s
  {
  }

  lemma AllButLastAppend<T>(a: seq<T>, b: seq<T>)
    requires |b| > 0
    ensures AllButLast(a + b) == a + AllButLast(b)
    ensures Last(a + b) == Last(b)
  {
    assert (a + b)[..|a + b| - 1] == a + b[..|b| - 1];
  }

  /** One more read only cuts further into what the buffer held. */
  lemma RecordsAppend(s: string, t: string)
    ensures Records(s + t) == Records(s) + Records(Rest(s) + t)
    ensures Rest(s + t) == Rest(Rest(s) + t)
  {
    SplitAppend(s, t, RecordSeparator);
    AllButLastAppend(AllButLast(Split(s, RecordSeparator)), Split(Rest(s) + t, RecordSeparator));
  }

  /**
   * Read boundaries do not matter: a stream's reads handle exactly the complete
   * records of all the text read so far, in order, and buffer the rest. What
   * is still buffered when the stream ends is never handled.
   */
  lemma {:induction false} ReadBoundariesIrrelevant(st: ChatState, buffer: string, texts: seq<string>, parse: string -> Payload, userMessage: string)
    requires Streaming(st) && !Contains(buffer, RecordSeparator)
    ensures FeedReads(st, buffer, texts, parse, userMessage)
            == (DispatchAll(st, Records(buffer + Concat(texts)), parse, userMessage), Rest(buffer + Concat(texts)))
    decreases |texts|
  {
    if |texts| == 0 {
      assert buffer + Concat(texts) == buffer;
      ReadsNone(st, buffer, parse, userMessage);
    } else {
      var pre, x := AllButLast(texts), Last(texts);
      ReadBoundariesIrrelevant(st, buffer, pre, parse, userMessage);
      assert texts == pre + [x];
      BufferSnoc(buffer, texts, pre, x);
      FeedReadExtends(st, buffer + Concat(pre), x, parse, userMessage);
    }
  }

  lemma BufferSnoc(buffer: string, texts: seq<string>, pre: seq<string>, x: string)
    requires texts == pre + [x]
    ensures buffer + Concat(texts) == buffer + Concat(pre) + x
  {
    ConcatSnoc(pre, x);
  }

  /** A read after the complete records of `s` were handled handles those of `s + x`. */
  lemma FeedReadExtends(st: ChatState, s: string, x: string, parse: string -> Payload, userMessage: string)
    requires Streaming(st)
    ensures FeedRead(DispatchAll(st, Records(s), parse, userMessage), Rest(s), x, parse, userMessage)
            == (DispatchAll(st, Records(s + x), parse, userMessage), Rest(s + x))
  {
    RecordsAppend(s, x);
    DispatchAppend(st, Records(s), Records(Rest(s) + x), parse, userMessage);
  }

  /** Before any read, the buffer's own complete records are those handled. */
  lemma ReadsNone(st: ChatState, buffer: string, parse: string -> Payload, userMessage: string)
    requires Streaming(st) && !Contains(buffer, RecordSeparator)
    ensures DispatchAll(st, Records(buffer), parse, userMessage) == st && Rest(buffer) == buffer
  {
    FindIsFirst(buffer, RecordSeparator);
    assert Split(buffer, RecordSeparator) == [buffer];
  }

  // ---------------------------------------------------------------------------
  // Properties of single events
  // ---------------------------------------------------------------------------

  /** Inert data leaves the whole conversation as it was. */
  lemma InertUnchanged(st: ChatState, p: Payload, userMessage: string)
    requires Streaming(st) && Inert(p)
    ensures Step(st, p, userMessage) == st
  {
  }

  /**
   * A `chunk` removes at most one typing indicator and extends the current
   * message's raw text, which it then shows as plain text; every other item,
   * the storage and the remembered auth url stay as they were.
   */
  lemma ChunkAppends(st: ChatState, c: string, userMessage: string)
    requires Streaming(st)
    ensures var r := Handle(st, Chunk(c), userMessage);
      && r.current == st.current && |r.items| == |st.items|
      && r.items[r.current].rawText == st.items[st.current].rawText + c
      && r.items[r.current].display == Text(r.items[r.current].rawText)
      && r.items[r.current].sender == st.items[st.current].sender
      && (forall k :: 0 <= k < |st.items| && k != st.current ==> r.items[k] == st.items[k])
      && st.typing - 1 <= r.typing <= st.typing && (st.typing > 0 ==> r.typing < st.typing)
      && r.storage == st.storage && r.formatted == st.formatted
  {
  }

  /** The indicators are counted: one shown by `content_block_complete` is the one the next `chunk` removes. */
  lemma TypingBalanced(st: ChatState, c: string, userMessage: string)
    requires Streaming(st)
    ensures Handle(Handle(st, ContentBlockComplete, userMessage), Chunk(c), userMessage).typing == st.typing
  {
  }

  /**
   * `new_message` formats the current message, shows one more typing
   * indicator and opens a fresh empty bubble, which becomes current; the
   * items before it are otherwise untouched.
   */
  lemma NewMessageOpensFresh(st: ChatState, userMessage: string)
    requires Streaming(st)
    ensures var r := Handle(st, NewMessage, userMessage);
      && r.typing == st.typing + 1
      && |r.items| == |st.items| + 1 && r.current == |st.items|
      && r.items[r.current] == Bubble(Assistant, "", Text(""))
      && r.items[st.current] == FormatMessage(st, st.current).items[st.current]
      && (forall k :: 0 <= k < |st.items| && k != st.current ==> r.items[k] == st.items[k])
      && r.storage == st.storage
  {
  }

  /**
   * An `error` or `rate_limit_exceeded` event only replaces what the bubble
   * shows; its raw text stays, so a later `message_complete` shows the
   * formatted raw text instead of the notice whenever that text is non-empty.
   */
  lemma NoticeOverwritten(st: ChatState, ev: StreamEvent, userMessage: string)
    requires Streaming(st) && (ev == Error || ev == RateLimitExceeded)
    requires st.items[st.current].rawText != ""
    ensures var e := Handle(st, ev, userMessage);
      && e.items[e.current].display == Text(if ev == Error then FailureText else BusyText)
      && e.items[e.current].rawText == st.items[st.current].rawText
      && Handle(e, MessageComplete, userMessage).items[st.current].display
         == FormatMessage(st, st.current).items[st.current].display
  {
  }

  /** The two storage writes: a non-empty conversation id, and the user's message on `auth_required`. */
  lemma StorageWrites(st: ChatState, c: string, userMessage: string)
    requires Streaming(st)
    ensures Handle(st, Id(c), userMessage).storage
            == if c == "" then st.storage else st.storage[ConversationKey := c]
    ensures Handle(st, AuthRequired, userMessage).storage[LastMessageKey] == userMessage
    ensures forall key :: key in st.storage && key != LastMessageKey ==>
              key in Handle(st, AuthRequired, userMessage).storage
              && Handle(st, AuthRequired, userMessage).storage[key] == st.storage[key]
  {
  }

  // ---------------------------------------------------------------------------
  // Properties of formatting
  // ---------------------------------------------------------------------------

  /** A bubble with empty raw text is left as it is. */
  lemma FormatEmptyUnchanged(st: ChatState, k: nat)
    requires k < |st.items| && st.items[k].Bubble? && st.items[k].rawText == ""
    ensures FormatMessage(st, k) == st
  {
  }

  /**
   * Text without a `[` has no link to rewrite: it goes straight to the
   * markdown converter and the remembered auth url stays.
   */
  lemma FormatLinkFree(st: ChatState, k: nat)
    requires k < |st.items| && st.items[k].Bubble? && st.items[k].rawText != ""
    requires '[' !in st.items[k].rawText
    ensures InnerHtml(FormatMessage(st, k).items[k].display) == Some(Markdown.MarkdownHtml(st.items[k].rawText))
    ensures AuthUrl(FormatMessage(st, k)) == AuthUrl(st)
  {
    Links.LinkFreeUnchanged(st.items[k].rawText);
    FormatAuthUrl(st, k);
  }

  /**
   * The remembered auth url changes exactly when the raw text holds an auth
   * link, and then it is the url of the last one.
   */
  lemma FormatRemembersLastAuth(st: ChatState, k: nat)
    requires k < |st.items| && st.items[k].Bubble? && st.items[k].rawText != ""
    ensures var ts := Links.Tokens(st.items[k].rawText);
      && ((forall j :: 0 <= j < |ts| ==> !Links.IsAuth(ts[j])) ==> AuthUrl(FormatMessage(st, k)) == AuthUrl(st))
      && (forall j :: 0 <= j < |ts| && Links.IsAuth(ts[j]) && (forall i :: j < i < |ts| ==> !Links.IsAuth(ts[i]))
            ==> AuthUrl(FormatMessage(st, k)) == Some(ts[j].url))
  {
    var ts := Links.Tokens(st.items[k].rawText);
    FormatAuthUrl(st, k);
    Links.LastAuthUrlIsLast(ts);
    forall j | 0 <= j < |ts| && Links.IsAuth(ts[j]) && (forall i :: j < i < |ts| ==> !Links.IsAuth(ts[i]))
      ensures Links.LastAuthUrl(ts) == Some(ts[j].url)
    {
      var m :| 0 <= m < |ts| && Links.IsAuth(ts[m]) && ts[m].url == Links.LastAuthUrl(ts).value
               && forall i :: m < i < |ts| ==> !Links.IsAuth(ts[i]);
      assert m == j;
    }
  }

  /** Formatting a non-empty text remembers its last auth link's url, if it has one. */
  lemma FormatAuthUrl(st: ChatState, k: nat)
    requires k < |st.items| && st.items[k].Bubble? && st.items[k].rawText != ""
    ensures var u := Links.LastAuthUrl(Links.Tokens(st.items[k].rawText));
      AuthUrl(FormatMessage(st, k)) == if u.Some? then u else AuthUrl(st)
  {
    var raw := st.items[k].rawText;
    var urls := AuthUrls(st.formatted + [raw]);
    assert Last(urls) == Links.RewriteLinks(raw).1;
    assert AllButLast(urls) == AuthUrls(st.formatted);
  }

  // ---------------------------------------------------------------------------
  // Runs of chunks
  // ---------------------------------------------------------------------------

  /** Each record is a data record that parses to the chunk at the same place. */
  predicate ChunkRecords(records: seq<string>, chunks: seq<string>, parse: string -> Payload)
  {
    && |records| == |chunks|
    && forall k :: 0 <= k < |records| ==>
         StartsWith(records[k], DataPrefix) && parse(records[k][|DataPrefix|..]) == Parsed(Chunk(chunks[k]))
  }

  function Saturating(a: nat, b: nat): nat
  {
    if a >= b then a - b else 0
  }

  /**
   * `r` is `st` after the chunks streamed into its current message: the raw
   * text grew by all of them in order, one typing indicator went per chunk
   * while there were any, and nothing else in the conversation changed.
   */
  predicate StreamedInto(st: ChatState, r: ChatState, chunks: seq<string>)
    requires Streaming(st) && Streaming(r)
  {
    && r.current == st.current && |r.items| == |st.items|
    && r.items[r.current].rawText == st.items[st.current].rawText + Concat(chunks)
    && r.items[r.current].sender == st.items[st.current].sender
    && (|chunks| > 0 ==> r.items[r.current].display == Text(r.items[r.current].rawText))
    && (|chunks| == 0 ==> r.items[r.current].display == st.items[st.current].display)
    && (forall k :: 0 <= k < |st.items| && k != st.current ==> r.items[k] == st.items[k])
    && r.typing == Saturating(st.typing, |chunks|)
    && r.storage == st.storage && r.formatted == st.formatted
  }

  /** A run of chunk records streams into the current message. */
  lemma {:induction false} ChunksAccumulate(st: ChatState, records: seq<string>, chunks: seq<string>,
                                            parse: string -> Payload, userMessage: string)
    requires Streaming(st) && ChunkRecords(records, chunks, parse)
    ensures StreamedInto(st, DispatchAll(st, records, parse, userMessage), chunks)
    decreases |records|
  {
    if |records| == 0 {
      assert Concat(chunks) == "";
    } else {
      var pre, cs := AllButLast(records), AllButLast(chunks);
      ChunkRecordsSplit(records, chunks, parse);
      ChunksAccumulate(st, pre, cs, parse, userMessage);
      var s := DispatchAll(st, pre, parse, userMessage);
      var c := Last(chunks);
      ChunkRecordStep(s, Last(records), c, parse, userMessage);
      StreamedSnoc(st, s, cs, c, userMessage);
    }
  }

  lemma ChunkRecordsSplit(records: seq<string>, chunks: seq<string>, parse: string -> Payload)
    requires ChunkRecords(records, chunks, parse) && |records| > 0
    ensures ChunkRecords(AllButLast(records), AllButLast(chunks), parse)
    ensures StartsWith(Last(records), DataPrefix)
    ensures parse(Last(records)[|DataPrefix|..]) == Parsed(Chunk(Last(chunks)))
    ensures chunks == AllButLast(chunks) + [Last(chunks)]
  {
    var pre, cs := AllButLast(records), AllButLast(chunks);
    forall k | 0 <= k < |pre| ensures pre[k] == records[k] && cs[k] == chunks[k] { }
  }

  /** A chunk record is handled as its chunk. */
  lemma ChunkRecordStep(s: ChatState, x: string, c: string, parse: string -> Payload, userMessage: string)
    requires Streaming(s) && StartsWith(x, DataPrefix) && parse(x[|DataPrefix|..]) == Parsed(Chunk(c))
    ensures Dispatch(s, x, parse, userMessage) == Handle(s, Chunk(c), userMessage)
  {
  }

  /** One more chunk extends a streamed run. */
  lemma StreamedSnoc(st: ChatState, s: ChatState, cs: seq<string>, c: string, userMessage: string)
    requires Streaming(st) && Streaming(s) && StreamedInto(st, s, cs)
    ensures StreamedInto(st, Handle(s, Chunk(c), userMessage), cs + [c])
  {
    ChunkAppends(s, c, userMessage);
    ConcatAppend(cs, [c]);
    assert Concat([c]) == c;
  }
}
