# A verified model of the ThinkAI chat bubble

The chat bubble is a storefront widget. A customer types a message and the
widget streams the assistant's answer from a server as `data: ` records. Each
record is one event (`chunk`, `message_complete`, `new_message`, `error`, ...),
and the events grow and format message bubbles in a container. Formatting
does two things. It rewrites markdown links three ways: auth, checkout and
plain. It then converts a small markdown subset (bold, bullet and numbered
lists, paragraphs) to HTML. Around this sit four smaller pieces:
- an order-tracking input mode;
- a poller that waits for the customer to finish authorising in a popup and then resumes the conversation;
- a product carousel with arrow buttons;
- a filter over help articles.

The model keeps the widget's state as values: sequences, maps and counters
rather than DOM nodes. It has these modules:

- `Text`: the string operations the widget relies on. These are
  `startsWith`, `includes`, `split`, `join`, `trim`, a global literal
  `replace` and ASCII `toLowerCase`, each with its laws (split/join round
  trip, trim as a blank-padded slice, ...).
- `Links`: the link regular expression `\[([^\]]+)\]\(([^)]+)\)` as a
  left-to-right tokeniser, the three-way classification, its rendering, and
  the url of the last auth link (`window.thinkAIAuthUrl`).
- `Markdown`: the bold rewrite; the line shapes the two list patterns
  recognise (bullet tried first); the grouping of lines into maximal list
  runs (`Blocks`); and the source's loop, with its `currentList` /
  `listItems` / `startNumber` state, proved to return exactly
  `MarkdownHtml`.
- `Events`: the conversation state (`items`, the current stream bubble, a
  typing-indicator count, `sessionStorage`, and the texts formatted so
  far). It also holds `handleStreamEvent` as a function, and the record
  splitting of `streamResponse` with `JSON.parse` as a parameter.
- `Session`: the widget as a class `ChatSession`. Each handler is a method
  proved against the functions of `Events`. The handlers include the send
  guard, a read of the stream loop, each event, the routing of
  `handleSendNewMessage`, and the switches between the two input modes.
- `Polling`: the token poll as two pure steps, the check made before the
  request and the handling of the answer after it; runs of answers and
  restarts by any number of pollers; and the class `Poller` with
  `startTokenPolling`, `openAuthPopup` and the auth-trigger click.
- `Carousel`: `initCarousel`'s navigation as a class over an `array<bool>`
  of `active` flags, proved against pure click functions.
- `Search`: `handleSearchInput` as a loop over an `array<bool>` of shown
  flags, proved against a filter predicate.

`window.thinkAIAuthUrl` is not a field. Each formatting records its raw text,
and the url is read off that record (`Events.AuthUrl`): it is the url of the
last auth link in the latest formatted text that has one. Likewise, a
formatted bubble keeps its raw text. Its `innerHTML`
(`Events.InnerHtml`) is the markdown conversion of the link-rewritten text.

Two behaviours of the code are kept as they are:
- when a stream ends, the typing indicator is not hidden: the read loop at chat.js:471-491 has no such step;
- a complete order-tracking form is submitted as written, so `HandleSendNewMessage` shows the request twice and streams nothing. The discrepancy is listed under Findings.

## Model

| member | source | states |
|---|---|---|
| Text.StartsWithIff | extensions/chat-bubble/assets/chat.js:480 | `line.startsWith(p)` holds exactly when `p` occurs at index 0 |
| Text.Split | extensions/chat-bubble/assets/chat.js:476-477 | splitting gives at least one piece, so `lines.pop()` always yields a string |
| Text.SplitJoin | extensions/chat-bubble/assets/chat.js:476 | joining the pieces of a split with the separator gives back the string |
| Text.SplitPiecesFree | extensions/chat-bubble/assets/chat.js:476 | no piece of a split contains the separator |
| Text.SplitAppend | extensions/chat-bubble/assets/chat.js:475-477 | splitting `s + t` keeps every complete piece of `s` and re-splits only its last piece together with `t` |
| Text.ReplaceAllIsSplitJoin | extensions/chat-bubble/assets/chat.js:422 | the global literal replace replaces every leftmost, non-overlapping occurrence (it equals split then join) |
| Text.ReplaceAllAbsent | extensions/chat-bubble/assets/chat.js:422 | a pattern that does not occur leaves the text unchanged |
| Text.TrimStart | extensions/chat-bubble/assets/chat.js:386-387 | the result is a suffix of the input, what it drops is blank, and it starts with a non-space |
| Text.TrimStartBlank | extensions/chat-bubble/assets/chat.js:386-387 | `TrimStart` drops exactly a leading blank stretch |
| Text.TrimEnd | extensions/chat-bubble/assets/chat.js:211 | the result is a prefix of the input, what it drops is blank, and it ends with a non-space |
| Text.TrimEmptyIffBlank | extensions/chat-bubble/assets/chat.js:1327 | `trim()` is empty exactly when the string is all whitespace |
| Text.TrimmedEnds | extensions/chat-bubble/assets/chat.js:211 | a non-empty trimmed string has non-space ends, and trimming is idempotent |
| Text.TrimIsSlice | extensions/chat-bubble/assets/chat.js:211 | `trim()` is the slice of the input between a blank prefix and a blank suffix |
| Text.TrimNoop | extensions/chat-bubble/assets/chat.js:1313-1314 | a string without whitespace at its ends is its own trim |
| Links.AuthIffDomain | extensions/chat-bubble/assets/chat.js:357 | a url is classified as an auth link exactly when it contains `shopify.com/authentication` (the test's second conjunct is implied) |
| Links.CheckoutIff | extensions/chat-bubble/assets/chat.js:357-361 | a url is a checkout link exactly when it is not an auth url and contains `/cart` or `checkout` |
| Links.AnchorKeeps | extensions/chat-bubble/assets/chat.js:359-363 | an auth anchor keeps the link text; a checkout anchor keeps the url and shows the fixed checkout text; a plain anchor keeps both text and url |
| Links.LinkAt | extensions/chat-bubble/assets/chat.js:355 | a match at the start of the text spells `[text](url)` and has a non-empty text without `]` and a non-empty url without `)` |
| Links.Next | extensions/chat-bubble/assets/chat.js:355-356 | each scan step consumes at least one character and the token spells out exactly what it consumed |
| Links.TokensWellFormed | extensions/chat-bubble/assets/chat.js:355 | every link the scan finds is well formed |
| Links.TokensRoundTrip | extensions/chat-bubble/assets/chat.js:356-365 | the tokens spell out the original text: the scan loses and duplicates nothing |
| Links.LastAuthUrlIsLast | extensions/chat-bubble/assets/chat.js:357-358 | no url is remembered exactly when there is no auth link; otherwise it is the url of the last one |
| Links.LinkAtFinds | extensions/chat-bubble/assets/chat.js:355 | conversely, a well-formed `[text](url)` at the start of the text is matched, whole, whatever follows it |
| Links.TokensAtLink | extensions/chat-bubble/assets/chat.js:355-356 | a well-formed link at the start becomes one link token, and the scan goes on right after it |
| Links.TokensLinkFreePrefix | extensions/chat-bubble/assets/chat.js:355-356 | text without `[` tokenises the same whatever follows it |
| Links.LinkFound | extensions/chat-bubble/assets/chat.js:355-356 | a well-formed link after text without `[` is found as a link token, between the tokens of what precedes and follows it |
| Links.RewriteOneLink | extensions/chat-bubble/assets/chat.js:355-365 | a text with one well-formed link gets exactly that link replaced by its anchor, and remembers its url exactly when it is an auth link |
| Links.LinkFreeTokens | extensions/chat-bubble/assets/chat.js:356-365 | text without `[` tokenises into its characters and renders as itself |
| Links.LinkFreeUnchanged | extensions/chat-bubble/assets/chat.js:356-365 | text without `[` is left alone by the link rewrite and sets no auth url |
| Markdown.CloseAt | extensions/chat-bubble/assets/chat.js:377 | the lazy `(.*?)\1` closes at the first later occurrence of the delimiter, with no line terminator before it |
| Markdown.BoldPlain | extensions/chat-bubble/assets/chat.js:377 | text without `**` or `__` is left as it is by the bold rewrite |
| Markdown.BoldSpan | extensions/chat-bubble/assets/chat.js:377 | a delimited span on one line becomes `<strong>` + span + `</strong>`, and the rest is rewritten on its own |
| Markdown.RestOfLine | extensions/chat-bubble/assets/chat.js:386-387 | `(.*)` takes the longest prefix without a line terminator |
| Markdown.DigitRun | extensions/chat-bubble/assets/chat.js:387 | a greedy `(\d+)` takes the longest run of leading digits |
| Markdown.DigitRunAt | extensions/chat-bubble/assets/chat.js:387 | a run of digits followed by a non-digit is read whole |
| Markdown.BulletLineMatch | extensions/chat-bubble/assets/chat.js:386 | every line of the form blanks, `-` or `*`, at least one blank, item matches the bullet pattern, with the item's line as its text |
| Markdown.NumberedLineMatch | extensions/chat-bubble/assets/chat.js:387 | every line of the form blanks, digits, `.` or `)`, at least one blank, item matches the numbered pattern, with the digits' value and the item's line |
| Markdown.LastBlockKind | extensions/chat-bubble/assets/chat.js:389-415 | the block a line lands in has that line's kind: bullet in `<ul>`, numbered in `<ol>`, blank as `<br>`, other lines as `<p>` of the untrimmed line |
| Markdown.AddLineMaximal | extensions/chat-bubble/assets/chat.js:389-415 | adding a line keeps lists non-empty and never puts two lists of one kind side by side |
| Markdown.BlocksMaximal | extensions/chat-bubble/assets/chat.js:384-420 | every list is a maximal run: two lists of the same kind are never adjacent |
| Markdown.AddLineEntry | extensions/chat-bubble/assets/chat.js:389-415 | each line adds exactly its one entry (`<li>`, `<br>` or `<p>`), whichever way it is grouped |
| Markdown.BlocksLossless | extensions/chat-bubble/assets/chat.js:384-420 | grouping loses and reorders nothing: every line yields exactly one entry, in order |
| Markdown.RunOpens | extensions/chat-bubble/assets/chat.js:389-407 | a list line after a line of another kind opens a new list |
| Markdown.BulletRun | extensions/chat-bubble/assets/chat.js:389-397 | a maximal run of bullet lines becomes exactly one `<ul>` holding the run's item texts in order |
| Markdown.NumberedRun | extensions/chat-bubble/assets/chat.js:398-407 | a maximal run of numbered lines becomes exactly one `<ol>` whose start is its first line's number; later numbers are ignored |
| Markdown.JoinUl | extensions/chat-bubble/assets/chat.js:390-397 | a bullet line joins the open unordered list |
| Markdown.JoinOl | extensions/chat-bubble/assets/chat.js:399-407 | a numbered line joins the open ordered list, and its start number stays |
| Markdown.CloseOpenList | extensions/chat-bubble/assets/chat.js:418-420 | closing the open list, if any, emits exactly the HTML of the blocks so far |
| Markdown.BulletLine | extensions/chat-bubble/assets/chat.js:389-397 | the loop's bullet branch keeps the loop state equal to the grouping of the lines so far |
| Markdown.NumberedLine | extensions/chat-bubble/assets/chat.js:398-407 | the loop's numbered branch keeps the loop state equal to the grouping of the lines so far |
| Markdown.OtherLine | extensions/chat-bubble/assets/chat.js:408-415 | the loop's other branch closes the open list and emits `<br>` or `<p>`, keeping the loop state equal to the grouping |
| Markdown.ConvertLine | extensions/chat-bubble/assets/chat.js:385-415 | one loop iteration, with the bullet pattern tried before the numbered one, adds the line to the grouping |
| Markdown.ConvertMarkdown | extensions/chat-bubble/assets/chat.js:376-423 | the source's loop returns exactly `MarkdownHtml(text)`: bold rewrite, grouping into maximal lists, and the `</p><p>` seam pass |
| Events.RemoveOne | extensions/chat-bubble/assets/chat.js:152-158 | removing takes away one indicator when there is one and none otherwise |
| Events.LastSetIsLast | extensions/chat-bubble/assets/chat.js:357-358 | the remembered auth url is unset exactly when no formatting set one; otherwise it is the one set last |
| Events.OpenStream | extensions/chat-bubble/assets/chat.js:464-469 | the response's empty bubble is appended and a stream is in progress on it |
| Events.Handle | extensions/chat-bubble/assets/chat.js:507-574 | every event keeps the current message an existing bubble |
| Events.Step | extensions/chat-bubble/assets/chat.js:481-488 | a record's data, parsed or malformed, keeps a stream in progress |
| Events.Dispatch | extensions/chat-bubble/assets/chat.js:479-489 | handling one record keeps a stream in progress |
| Events.DispatchAll | extensions/chat-bubble/assets/chat.js:479-490 | handling a read's records keeps a stream in progress |
| Events.FeedRead | extensions/chat-bubble/assets/chat.js:475-490 | one read keeps a stream in progress |
| Events.FeedReads | extensions/chat-bubble/assets/chat.js:471-491 | any number of reads keeps a stream in progress |
| Events.RecordsRoundTrip | extensions/chat-bubble/assets/chat.js:475-477 | the records and new buffer, rejoined with `\n\n`, give the old buffer plus the decoded text; the new buffer and every record hold no `\n\n` |
| Events.DispatchAppend | extensions/chat-bubble/assets/chat.js:479-490 | handling two runs of records is handling the first and then the second |
| Events.SkipIgnored | extensions/chat-bubble/assets/chat.js:479-489 | a non-`data: ` record, or one whose data fails to parse or is inert, is skipped: the records around it are handled as if it were absent |
| Events.RecordsAppend | extensions/chat-bubble/assets/chat.js:475-477 | one more read only cuts further into what the buffer held |
| Events.ReadBoundariesIrrelevant | extensions/chat-bubble/assets/chat.js:471-491 | after any reads, exactly the complete records of all text read so far have been handled, in order; the rest stays buffered and is dropped when the stream ends |
| Events.FeedReadExtends | extensions/chat-bubble/assets/chat.js:475-490 | a read after the records of `s` handles the records of `s + x` |
| Events.ReadsNone | extensions/chat-bubble/assets/chat.js:462 | an unread buffer without a separator handles nothing and stays as it is |
| Events.InertUnchanged | extensions/chat-bubble/assets/chat.js:552-556 | malformed data, a `tool_use` event and an unrecognised type leave the whole conversation unchanged |
| Events.ChunkAppends | extensions/chat-bubble/assets/chat.js:515-520 | a chunk removes at most one indicator, appends to the current raw text and shows it as plain text; no other item, the storage and the auth url all stay |
| Events.TypingBalanced | extensions/chat-bubble/assets/chat.js:570-572 | the indicator a `content_block_complete` shows is the one the next `chunk` removes |
| Events.NewMessageOpensFresh | extensions/chat-bubble/assets/chat.js:558-568 | `new_message` formats the current bubble, adds one indicator and appends a fresh empty bubble that becomes current; earlier items are otherwise untouched |
| Events.NoticeOverwritten | extensions/chat-bubble/assets/chat.js:532-542 | `error` and `rate_limit_exceeded` show their notice but keep the raw text, so a later `message_complete` shows the formatted raw text instead |
| Events.StorageWrites | extensions/chat-bubble/assets/chat.js:509-546 | a non-empty conversation id is stored and an empty one ignored; `auth_required` stores the user's message and keeps every other key |
| Events.FormatEmptyUnchanged | extensions/chat-bubble/assets/chat.js:351 | a bubble whose raw text is empty is left as it is |
| Events.FormatLinkFree | extensions/chat-bubble/assets/chat.js:356-368 | text without `[` goes straight to the markdown converter and keeps the auth url |
| Events.FormatRemembersLastAuth | extensions/chat-bubble/assets/chat.js:356-359 | formatting changes the auth url exactly when the text holds an auth link, and then it becomes the url of the last one |
| Events.FormatAuthUrl | extensions/chat-bubble/assets/chat.js:357-358 | after formatting, the auth url is this text's last auth url if it has one, and the previous one otherwise |
| Events.ChunksAccumulate | extensions/chat-bubble/assets/chat.js:515-520 | a run of chunk records appends all chunks in order to the current message, removes one indicator per chunk while any remain, and changes nothing else |
| Events.ChunkRecordStep | extensions/chat-bubble/assets/chat.js:479-483 | a data record that parses to a chunk is handled as that chunk |
| Events.StreamedSnoc | extensions/chat-bubble/assets/chat.js:515-520 | one more chunk extends a streamed run |
| Session.Outgoing | extensions/chat-bubble/assets/chat.js:211-214 | nothing is sent exactly when the value is all whitespace; what is sent is non-empty with non-space ends |
| Session.OutgoingIsSlice | extensions/chat-bubble/assets/chat.js:211 | what is sent is the value with only whitespace cut from its ends |
| Session.RouteCases | extensions/chat-bubble/assets/chat.js:1309-1336 | in tracking mode the form is refused exactly when a field is blank, and a complete form becomes the request built from the trimmed fields; otherwise a blank message is ignored, and a message is diverted to tracking exactly when it mentions `order tracking` in any case |
| Session.TrackingRequestTrimmed | extensions/chat-bubble/assets/chat.js:1321 | a request built from a trimmed email passes the send guard unchanged |
| Session.ChatSession.ShowTypingIndicator | extensions/chat-bubble/assets/chat.js:140-147 | one more indicator, every time |
| Session.ChatSession.RemoveTypingIndicator | extensions/chat-bubble/assets/chat.js:152-158 | at most one indicator goes |
| Session.ChatSession.FormatAt | extensions/chat-bubble/assets/chat.js:350-369 | the window's state becomes `FormatMessage` of the old state |
| Session.ChatSession.AddMessage | extensions/chat-bubble/assets/chat.js:239-283 | a bubble is appended (loader, user `<p>` or a formatted assistant message), as `Events.AddMessage` says |
| Session.ChatSession.SendInput | extensions/chat-bubble/assets/chat.js:210-224 | a blank textarea changes nothing; otherwise the trimmed text is shown as the user's, the textarea is cleared, one indicator is added and the text is streamed |
| Session.ChatSession.SendValue | extensions/chat-bubble/assets/chat.js:210-218 | called with a plain object, the user's bubble is added and then the missing `style` stops the handler before the indicator and the stream |
| Session.ChatSession.OpenStream | extensions/chat-bubble/assets/chat.js:460-469 | the response's empty bubble becomes current, with an empty buffer |
| Session.ChatSession.StreamFailed | extensions/chat-bubble/assets/chat.js:492-496 | a failed stream removes one indicator and adds the apology as an assistant message |
| Session.ChatSession.HandleEvent | extensions/chat-bubble/assets/chat.js:507-574 | the dispatch over the event type does what `Events.Step` says, and a malformed payload is skipped |
| Session.ChatSession.OnChunk | extensions/chat-bubble/assets/chat.js:515-520 | the `chunk` branch, as `Events.Handle` says |
| Session.ChatSession.OnMessageComplete | extensions/chat-bubble/assets/chat.js:522-526 | the `message_complete` branch, as `Events.Handle` says |
| Session.ChatSession.OnNotice | extensions/chat-bubble/assets/chat.js:532-542 | the `error` and `rate_limit_exceeded` branches, as `Events.Handle` says |
| Session.ChatSession.OnNewMessage | extensions/chat-bubble/assets/chat.js:558-568 | the `new_message` branch, as `Events.Handle` says |
| Session.ChatSession.OpenBubble | extensions/chat-bubble/assets/chat.js:562-567 | an empty assistant bubble is appended and becomes current |
| Session.ChatSession.OnBookkeeping | extensions/chat-bubble/assets/chat.js:509-572 | the `id`, `end_turn`, `auth_required`, `product_results`, `tool_use`, `content_block_complete` and unknown branches, as `Events.Handle` says |
| Session.ChatSession.OnRead | extensions/chat-bubble/assets/chat.js:471-491 | one read of the stream loop ends in the state and buffer `Events.FeedRead` gives |
| Session.ChatSession.HandleSendNewMessage | extensions/chat-bubble/assets/chat.js:1304-1340 | for each route: blank does nothing; an incomplete form adds the hint and stays in tracking mode; a complete form is shown twice as the user's, returns to normal input, adds no indicator and sends no request; a tracking mention schedules the switch; any other message is sent |
| Session.ChatSession.SubmitTracking | extensions/chat-bubble/assets/chat.js:1321-1324 | the request is shown once as the user's, the normal input returns, one indicator is added and the request is streamed |
| Session.ChatSession.SubmitTrackingAsWritten | extensions/chat-bubble/assets/chat.js:1321-1324 | as written, the request is shown twice, no indicator is added and nothing is streamed |
| Session.TrackingShownTwice | extensions/chat-bubble/assets/chat.js:1321-1324 | the as-written submission leaves the request in two identical user bubbles, while the intended one leaves it in one |
| Session.ChatSession.TrackingTimerFired | extensions/chat-bubble/assets/chat.js:1331-1334 | the scheduled callback shows `Order Tracking` as the user's and switches to the tracking form |
| Session.ChatSession.SwitchToOrderTrackingInput | extensions/chat-bubble/assets/chat.js:1254-1281 | tracking mode is set with empty fields, and the prompt is added as an assistant message |
| Session.ChatSession.SwitchToNormalChatInput | extensions/chat-bubble/assets/chat.js:1286-1299 | tracking mode is cleared and the textarea is empty |
| Session.ChatSession.ResumeFired | extensions/chat-bubble/assets/chat.js:713-717 | the scheduled resume announces success, streams the pending message again and adds one indicator |
| Polling.Decimal | extensions/chat-bubble/assets/chat.js:678 | a number's decimal string is non-empty, and it is one digit exactly below ten |
| Polling.DecimalInjective | extensions/chat-bubble/assets/chat.js:678 | distinct numbers have distinct decimal strings |
| Polling.PollingIdInjective | extensions/chat-bubble/assets/chat.js:678 | pollers started at different milliseconds get different ids |
| Polling.CheckCases | extensions/chat-bubble/assets/chat.js:684-695 | a poll asks the server exactly when its generation is stored and fewer than 30 attempts were made, and then counts one attempt |
| Polling.AttemptsBounded | extensions/chat-bubble/assets/chat.js:690-695 | a poller never exceeds 30 attempts |
| Polling.AnswerCases | extensions/chat-bubble/assets/chat.js:697-728 | a failed or unauthorised answer leaves storage alone and polls again; `authorized` removes the stored generation, polls no more, and takes out the pending message, if any, for one resume; no other key changes |
| Polling.Superseded | extensions/chat-bubble/assets/chat.js:678-688 | once a poller starts at `now`, a poller from any other time stops at its next check |
| Polling.StaleAnswerEndsGeneration | extensions/chat-bubble/assets/chat.js:697-721 | an `authorized` answer to a request sent before a restart still removes the new generation's id, so the new poller stops at its next check |
| Polling.NoPendingNoResume | extensions/chat-bubble/assets/chat.js:707-721 | with no message pending, no answer or restart schedules a resume |
| Polling.AtMostOneResume | extensions/chat-bubble/assets/chat.js:707-721 | however the answers of any number of pollers, current or superseded, and any restarts interleave, the conversation is resumed at most once, with the message pending at the start |
| Polling.Poller.constructor | extensions/chat-bubble/assets/chat.js:678-682 | a new poller has its id, its conversation and no attempts, its first poll is scheduled and no request is on its way |
| Polling.Poller.Check | extensions/chat-bubble/assets/chat.js:684-699 | the scheduled poll stops or sends its request, with the attempt count `CheckStep` gives |
| Polling.Poller.Answer | extensions/chat-bubble/assets/chat.js:699-728 | the answer changes storage, scheduling and resumes as `AnswerStep` says, whatever generation storage holds by then |
| Polling.StartTokenPolling | extensions/chat-bubble/assets/chat.js:675-731 | without a conversation nothing happens; otherwise a new generation is stored and a fresh poller is scheduled |
| Polling.OpenAuthPopup | extensions/chat-bubble/assets/chat.js:663-667 | with a stored conversation, the progress notice is added and polling starts; without one nothing changes |
| Polling.AuthTriggerClicked | extensions/chat-bubble/assets/chat.js:77-84 | with no (or an empty) remembered auth url the click does nothing; otherwise it acts as `openAuthPopup` |
| Carousel.ClicksStayInRange | extensions/chat-bubble/assets/chat.js:928-938 | clicks keep the index within the cards and move it by at most one |
| Carousel.ClickTakesEffect | extensions/chat-bubble/assets/chat.js:928-938 | a click acts exactly when the lock is clear and a card lies that way, and acting sets the lock |
| Carousel.NextThenPrev | extensions/chat-bubble/assets/chat.js:925-938 | next, then (after the lock clears) previous, returns to the same card |
| Carousel.ForwardSaturates | extensions/chat-bubble/assets/chat.js:928-932 | from the first card, `k` settled clicks forward reach card `k`, or stop at the last card |
| Carousel.HighlightOne | extensions/chat-bubble/assets/chat.js:920-922 | exactly one card, the current one, is active |
| Carousel.ProductCarousel.constructor | extensions/chat-bubble/assets/chat.js:885-940 | one card is just made active, with no arrows; more cards get arrows and a first view update that sets the lock |
| Carousel.ProductCarousel.UpdateView | extensions/chat-bubble/assets/chat.js:903-926 | locks, marks exactly the current card active, disables each arrow exactly at its end, and schedules one unlock |
| Carousel.ProductCarousel.Next | extensions/chat-bubble/assets/chat.js:928-932 | the next arrow's click keeps the invariant and moves as `NextClick` says; a refused click changes nothing |
| Carousel.ProductCarousel.Prev | extensions/chat-bubble/assets/chat.js:934-938 | the previous arrow's click keeps the invariant and moves as `PrevClick` says; a refused click changes nothing |
| Carousel.ProductCarousel.Unlock | extensions/chat-bubble/assets/chat.js:925 | the unlock timer clears the lock and keeps the invariant |
| Carousel.InitCarousel | extensions/chat-bubble/assets/chat.js:839-842 | no products means no carousel; otherwise the carousel starts valid on the first card |
| Search.HandleSearchInput | extensions/chat-bubble/assets/chat.js:1105-1111 | every article is shown exactly when its lower-cased text contains the lower-cased value |
| Search.EmptyShowsAll | extensions/chat-bubble/assets/chat.js:1105-1111 | an empty search box shows every article |
| Search.TypingNarrows | extensions/chat-bubble/assets/chat.js:1109 | an article shown for a longer value was shown for any prefix of it |
| Search.CaseInsensitive | extensions/chat-bubble/assets/chat.js:1106-1108 | the filter ignores the case of both the value and the text |
| Search.OwnTextShown | extensions/chat-bubble/assets/chat.js:1106-1109 | searching for an article's own text, in either case, keeps it shown |
| Search.LowerIdempotent | extensions/chat-bubble/assets/chat.js:1106 | lower-casing twice is lower-casing once |

## Left out

- DOM construction, styles, profile images, scrolling (`scrollToBottom`, `scrollIntoView`), card markup and listener wiring are UI glue; items stand for the container's children.
- `fetch`, `TextDecoder`, `JSON.parse`, `window.open`, `alert` and `console` are browser or library calls. The decoded text of each read, the parse outcome of each record and the token-status answer of each poll are inputs.
- `setTimeout` delays (the 10 s and 2 s polls, the 500 ms resume and lock, the 100 ms tracking switch) are not modelled as time. Each firing is an explicit method call, and the timers still pending are counted (`trackingTimers`, `resumes`, `pendingSettles`, `Poller.scheduled`).
- `tool_use`: the handler it calls is commented out, so a non-empty tool message throws and the record is skipped. The commented-out matcher itself is not modelled.
- Overlapping streams are not modelled. `send` does not await `streamResponse`, so stale loops keep writing. Each stream is a sequence of `OnRead` calls on the window's current bubble.
- The synchronous `catch` in `Message.send` is not modelled. It never runs, because `streamResponse` is asynchronous and catches its own errors. Those errors are `StreamFailed`.
- `showNewChatScreen`, which runs before the order-tracking switch, is left out. It clears the container or reloads the history, shows the welcome message, and renders the predefined options. `fetchChatHistory` is left out as network I/O. The removal of the predefined options in `handleSendNewMessage` is DOM-only.
- The static article and action-button data, `showArticleViewScreen` and the mobile viewport are content or UI. An action-button prompt is sent with `Message.send({ value })` (chat.js:1086), the same call `SendValue` models for the tracking form.
- `displayProductResults` is modelled only as one appended product item. Its header, its "No products found" text and the card markup are left out. So is the fact that `getElementById('carousel-container')` picks the first such container in the document rather than the new one. The carousel model assumes that it gets the new one.
- Text.IsSpace: `\s` and `trim()` are approximated by a fixed set of common whitespace code points, not the full Unicode class.
- Text.Lower: `toLowerCase()` is modelled for the ASCII letters only.
- Polling.PollingId: two pollers started in the same millisecond get equal ids and are not told apart. `PollingIdInjective` needs distinct start times.
- Polling.OpenAuthPopup: the popup and its `alert` are left out. In the source the popup opens before the conversation check.
- Markdown.ConvertMarkdown: the `<ol>` start is the exact value of the first item's digits. The source's `parseInt` gives a double, which is exact only below 2^53 and is printed in exponent form from 10^21 on.
- Events.AuthUrl: `window.thinkAIAuthUrl` is derived from the log of formatted texts rather than held as a field. The value is the same.
- The end of a stream changes nothing: what is still buffered is dropped, and the typing indicator is not removed, as in the read loop at chat.js:471-491.
- UTF-8 decoding and the stream API's `done` flag are not modelled: a stream is the sequence of its decoded reads.

## Findings

| source | as written | input that shows it | evidently intended | confidence | as-written member | corrected member |
|---|---|---|---|---|---|---|
| extensions/chat-bubble/assets/chat.js:1321-1324 | the tracking request is added as the user's message, then `Message.send({ value })` adds it a second time and throws at `chatInput.style.height`, because a plain object has no `style`; the request is never streamed and no typing indicator appears | any tracking form with a non-blank order number and email | the request is shown once, one indicator appears and the request is streamed | not executed | Session.ChatSession.SubmitTrackingAsWritten | Session.ChatSession.SubmitTracking |
