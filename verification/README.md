# HARMONY core, modelled in Dafny

HARMONY is a voice and text financial assistant. This project models four of
its parts and proves properties about them:

- **The dataset marketplace agent** (`livekit-agent/livekit_basic_agent.py`).
  It holds a catalogue of datasets by domain and a spending ledger in MNEE.
  It offers three tools: view the spending history, search the catalogue by
  domain, and simulate a purchase. A purchase appends to the ledger. The
  agent is the class `Marketplace.HarmonyAgent`, with the catalogue and the
  ledger as fields.
- **One chat turn of the text agent** (`agent/main.py`). A data-channel
  message is appended to the chat context as a user message. The model's
  reply, streamed or not, is read, and a blank reply is replaced by a fixed
  fallback. The reply is recorded as an assistant message and published. When
  the model call fails, a fixed error text is published and no assistant
  message is recorded. When publishing the reply fails, the assistant
  message stays recorded and the error text is published instead. This is
  the class `Turn.TextAgent`.
- **The WebSocket endpoint of the server** (`server/server.py`). A session
  registers, then receives frames one at a time until it closes. Each frame
  is one of: `activate` (a greeting), `get_token` (a token message, or the
  end of the session when minting the token raises),
  `user_input` (one chat-completion request and one response), or something
  else (ignored). A frame that cannot be decoded ends the session. The
  session is always unregistered at the end. This is the class
  `Server.Server`, and `Server.Transcript` describes the messages a session
  sends.
- **The financial simulation engine** (`simulation-engine/src`). For an
  intent (pay a credit card, pay EMIs, handle an emergency), it runs each
  applicable strategy's simulator. It applies the strategy's immediate
  effect to the obligations and projects the following months: card
  interest, EMI instalments, card minimum dues, missed EMIs and cash-buffer
  breaches. It flags risks, marks each strategy valid or invalid, and
  demotes strategies that miss an EMI when a clean alternative exists. It
  then picks a recommendation and lists the rejected strategies with a
  reason. `Engine.ProcessSimulation` is the entry point.
  `Projection.ProjectState` is the month-by-month projection. The
  simulators are functions in `CreditCardSim`, `EmiSim` and `EmergencySim`.

Modules:
- `Wrappers` holds `Option` and `Result`.
- `Text` models Python's `strip`, `lower` and `join`, and integer
  formatting.
- `SimTypes` holds the engine's records.
- `Financials` holds the interest helper.

The engine's monetary values are `real`, so the model uses exact
arithmetic instead of IEEE doubles. EMI months and projection months are
integers.

## Model

| member | source | states |
|---|---|---|
| Text.TrimLeft | server/server.py:95 | The result is a suffix of the input. Everything dropped is whitespace. The result does not start with whitespace. |
| Text.TrimRight | server/server.py:95 | The result is a prefix of the input. Everything dropped is whitespace. The result does not end with whitespace. |
| Text.Strip | server/server.py:95 | `strip()` is empty exactly when the text is blank. A non-empty result begins and ends with a non-whitespace character. |
| Text.StripBlankAndEnds | agent/main.py:90 | Trimming left then right is empty exactly for blank text. Otherwise it has non-space ends. |
| Text.StripOccurs | server/server.py:95 | The stripped text occurs in the input with only whitespace before and after it. |
| Text.StripPieces | server/server.py:95 | The text left after trimming both ends sits at the trimmed offset, with only whitespace before and after it. |
| Text.SliceOfSuffix | server/server.py:95 | A prefix of the suffix starting at offset `n` occurs in the text at offset `n`. |
| Text.LeadingBlank | server/server.py:95 | The characters `lstrip` drops are all whitespace. |
| Text.TrailingBlank | server/server.py:95 | The characters `rstrip` drops are all whitespace. |
| Text.StripIdempotent | agent/main.py:90 | Stripping twice is stripping once. |
| Text.LowerChar | livekit-agent/livekit_basic_agent.py:121 | An upper-case ASCII letter maps to a lower-case letter. Every other character is unchanged. |
| Text.Lower | livekit-agent/livekit_basic_agent.py:121 | `lower()` keeps the length and lower-cases each character in place. |
| Text.LowerIdempotent | livekit-agent/livekit_basic_agent.py:121 | Lower-casing twice is lower-casing once. |
| Text.DigitChar | livekit-agent/livekit_basic_agent.py:104 | A digit below 10 is rendered as a character from '0' to '9'. |
| Text.NatToString | livekit-agent/livekit_basic_agent.py:104 | A natural number renders as a non-empty string of decimal digits. |
| Text.IntToString | livekit-agent/livekit_basic_agent.py:106 | An integer renders as a non-empty string that starts with '-' exactly when the number is negative. |
| Text.NatToStringRoundTrip | livekit-agent/livekit_basic_agent.py:104 | Reading the rendered digits back gives the original number. |
| Text.JoinContainsEach | livekit-agent/livekit_basic_agent.py:126 | `", ".join(parts)` contains every part. |
| Marketplace.Domains | livekit-agent/livekit_basic_agent.py:126 | The domain list is the catalogue's keys, in insertion order. |
| Marketplace.CatalogueIsValid | livekit-agent/livekit_basic_agent.py:45-71 | The catalogue has no repeated dataset id and no repeated domain. |
| Marketplace.Lookup | livekit-agent/livekit_basic_agent.py:123 | A domain is absent exactly when it is not a key. Otherwise the result is that key's listings. |
| Marketplace.FindInSpec | livekit-agent/livekit_basic_agent.py:156-157 | The scan of one domain finds a listing with the requested id. It finds nothing exactly when no listing there has that id. |
| Marketplace.FindListingSpec | livekit-agent/livekit_basic_agent.py:155-164 | The nested scan finds a listing with the requested id somewhere in the catalogue. It finds nothing exactly when no listing has that id. |
| Marketplace.FindListingUnique | livekit-agent/livekit_basic_agent.py:155-164 | In a catalogue with unique ids, looking up a listing's id finds that very listing. |
| Marketplace.SumCostsAppend | livekit-agent/livekit_basic_agent.py:100-104 | Appending an entry adds its cost to the ledger total. |
| Marketplace.HarmonyAgent.constructor | livekit-agent/livekit_basic_agent.py:45-85 | A new agent holds the fixed catalogue and the two-entry initial ledger. |
| Marketplace.HarmonyAgent.ViewSpendingHistory | livekit-agent/livekit_basic_agent.py:98-107 | The loop builds the history report of the current ledger: a header, one line per entry in order, then the total. |
| Marketplace.HarmonyAgent.SearchDatasets | livekit-agent/livekit_basic_agent.py:114-141 | The reply is the search reply for the lower-cased domain. |
| Marketplace.HarmonyAgent.SimulatePurchase | livekit-agent/livekit_basic_agent.py:148-173 | The ledger gains a "Today" entry exactly when the id is on offer, and the reply matches. Otherwise the ledger is unchanged and the not-found text is returned. Because the catalogue's ids are unique, an id on offer records exactly the listing with that id. The catalogue stays valid. |
| Marketplace.HistoryReport | livekit-agent/livekit_basic_agent.py:100-107 | The history text: the header, one line per ledger entry in order, then the total. Its ending is proved in `Marketplace.HistoryReportEndsWithTotal`. |
| Marketplace.SearchReply | livekit-agent/livekit_basic_agent.py:114-141 | The search text for an already lower-cased domain: the unknown-domain text naming every key, or the count header and one block per listing. Its content is proved in `Marketplace.UnknownDomainNamesEveryKey` and `Marketplace.KnownDomainListsEvery`. |
| Marketplace.HistoryReportEndsWithTotal | livekit-agent/livekit_basic_agent.py:106 | The history report ends with the total line for the ledger's sum. |
| Marketplace.PurchaseRaisesTotal | livekit-agent/livekit_basic_agent.py:158-164 | A purchase raises the ledger total by exactly the dataset's price. A failed purchase leaves the total unchanged. |
| Marketplace.PurchaseAppendsAtMostOne | livekit-agent/livekit_basic_agent.py:158-164 | The old ledger is a prefix of the new one. The new ledger is at most one entry longer, and that entry is the found dataset at its price, dated "Today". |
| Marketplace.PurchaseNotIdempotent | livekit-agent/livekit_basic_agent.py:158-164 | Buying the same dataset twice records it twice. |
| Marketplace.SearchCaseInsensitive | livekit-agent/livekit_basic_agent.py:121 | Two queries that agree up to ASCII case get the same reply. |
| Marketplace.SearchLowerStable | livekit-agent/livekit_basic_agent.py:121 | Lower-casing an already lower-cased query does not change the reply. |
| Marketplace.ContainsInMiddle | livekit-agent/livekit_basic_agent.py:126 | Text found in a piece is still found after other text is added before and after it. |
| Marketplace.ContainsAtEnd | livekit-agent/livekit_basic_agent.py:126 | The last piece of a concatenation occurs in it. |
| Marketplace.UnknownDomainNamesEveryKey | livekit-agent/livekit_basic_agent.py:123-127 | The reply to an unknown domain names every available domain. |
| Marketplace.ListingBlocksContainEach | livekit-agent/livekit_basic_agent.py:133-139 | The listing text contains the block of every listing. |
| Marketplace.ContainsBefore | livekit-agent/livekit_basic_agent.py:133-139 | Appending more blocks keeps every earlier block in the reply. |
| Marketplace.ListingBlocksStep | livekit-agent/livekit_basic_agent.py:133-139 | Each pass of the listing loop appends exactly the next listing's block. |
| Marketplace.KnownDomainListsEvery | livekit-agent/livekit_basic_agent.py:129-141 | The reply to a known domain starts with the "Found N datasets" header and contains every listing of that domain. |
| Marketplace.NlpSearchExample | livekit-agent/livekit_basic_agent.py:121-123 | "NLP" and "nlp" get the same reply, which is the nlp domain's listings. |
| Turn.StreamedTextAppend | agent/main.py:76-83 | The text of a stream split in two is the concatenation of the two parts' texts. |
| Turn.StreamedTextSkipsEmpty | agent/main.py:79-83 | A stream whose chunks carry no content yields the empty text. |
| Turn.AccumulateStream | agent/main.py:76-83 | The streaming loop accumulates the concatenation of the chunks' first-choice contents, in order. |
| Turn.CallModel | agent/main.py:73-86 | The raw reply is the streamed text, the plain text, or none when the call raises. |
| Turn.WithFallback | agent/main.py:90-91 | The reply is never blank. It is the model's text when that text is not blank, and the fallback otherwise. |
| Turn.AfterTurn | agent/main.py:66-93 | The context after one turn: the user message, then the assistant reply when the model answers. Its shape is proved in `Turn.TurnAppendsUserFirst` and `Turn.SuccessfulTurnAppends`. |
| Turn.TurnPublishes | agent/main.py:95-111 | The payloads one turn publishes, given which publishes the room accepts. Its cases are proved in `Turn.FailedTurnEndsWithUser`, `Turn.SuccessfulTurnRecordsPublished` and `Turn.UndeliveredReplyStaysRecorded`. |
| Turn.TextAgent.constructor | agent/main.py:10-18 | A new agent's chat context is just the system prompt, and nothing has been published. |
| Turn.TextAgent.OnDataReceived | agent/main.py:62-111 | The context gains the user message, then the reply whenever the model answers. The reply is published if the room accepts it. The error text is published if the model call failed or the reply publish failed, and the room accepts it. |
| Turn.TurnAppendsUserFirst | agent/main.py:66-93 | A turn only extends the context. The user message comes first; there is one message more on failure and two on success. |
| Turn.FailedTurnEndsWithUser | agent/main.py:102-110 | A failed model call leaves the user message last. It publishes the fixed error text, or nothing if that publish fails too. |
| Turn.SuccessfulTurnRecordsPublished | agent/main.py:93-100 | When the model answers and the reply is delivered, exactly one payload is published. The last context message is an assistant message holding exactly that payload, and it is not blank. |
| Turn.UndeliveredReplyStaysRecorded | agent/main.py:93-110 | When the model answers but the reply publish fails, the assistant reply stays last in the context. The room gets the error text instead, or nothing if that publish fails too. |
| Turn.StreamedReplyIsConcatenation | agent/main.py:76-91 | A streamed reply is the chunks' concatenation, or the fallback when that is blank. |
| Turn.AlternatesExtend | agent/main.py:66-93 | Appending a user message and then an assistant message keeps a context alternating. |
| Turn.SuccessfulTurnsAlternate | agent/main.py:62-99 | A run of successful turns keeps the context strictly alternating between user and assistant. |
| Turn.SuccessfulTurnAppends | agent/main.py:93-99 | A turn that does not raise produces a reply, and the context grows by exactly the user message and that reply, in that order. |
| Turn.FailureBreaksAlternation | agent/main.py:102-110 | After a failed turn, the next turn puts two user messages side by side. |
| Server.UserText | server/server.py:94-95 | A missing text is "", and a string is stripped. The result is empty exactly for blank text and has non-space ends. A non-string text raises. |
| Server.ReplyText | server/server.py:166-182 | The response text taken from the upstream answer. Its cases are proved in `Server.ReplyFromFirstChoice`, `Server.ReplyFromError`, `Server.ReplyOtherwiseUnsure` and `Server.ReplyShapes`. |
| Server.MessageText | server/server.py:173 | An error's message as the f-string renders it: the text, "Unknown error" when the key is absent, or "None" when it is null. Proved in `Server.ReplyFromError`. |
| Server.Dispatch | server/server.py:59-191 | How one frame is handled: greeting, token, response, ignored, or the end of the session. Its cases are proved in `Server.ActivateGreets`, `Server.MintedTokenSent`, `Server.FailedMintEndsSession`, `Server.UserInputGetsOneResponse` and `Server.UnknownTypeIgnored`. |
| Server.Server.constructor | server/server.py:53-55 | A new server keeps its configuration and has no active connections. |
| Server.Server.Register | server/server.py:53-55 | Accepting a session adds its id to the active connections. |
| Server.Server.Unregister | server/server.py:195-197 | Ending a session removes its id and nothing else. |
| Server.Server.HandleFrame | server/server.py:59-191 | One frame closes the session exactly when `Dispatch` says so, and then sends and requests nothing. Otherwise it sends at most one message and makes a request only when it sends a response. |
| Server.Server.ReceiveLoop | server/server.py:59-194 | The receive loop sends exactly the transcript of the frames and makes exactly their requests. |
| Server.Server.WebsocketEndpoint | server/server.py:53-197 | A session sends its transcript and makes its requests. Afterwards its id is no longer active, whatever happened. |
| Server.SessionAdvances | server/server.py:59-191 | A frame that does not close the session contributes its message and requests, and the rest follow. |
| Server.TranscriptStep | server/server.py:59-191 | The messages a session sends over frames that do not close it are the first frame's messages followed by the rest. |
| Server.RequestsStep | server/server.py:59-191 | The model requests of such a session are the first frame's requests followed by the rest. |
| Server.SessionCloses | server/server.py:193-194 | From a closing frame on, nothing more is sent or requested. |
| Server.ActivateGreets | server/server.py:64-68 | `activate` is answered with the greeting "Hey, how can I help you?". |
| Server.UserInputGetsOneResponse | server/server.py:94-191 | A `user_input` with a usable text gets one response and causes exactly one request. |
| Server.UnknownTypeIgnored | server/server.py:59-191 | A frame of any other type sends nothing and requests nothing. |
| Server.RequestHasTwoMessages | server/server.py:136-143 | The request holds the system prompt, then the stripped user text, with at most 300 tokens. |
| Server.ReplyFromFirstChoice | server/server.py:166-170 | When choices exist, the reply is the first choice's content. |
| Server.ReplyFromError | server/server.py:171-174 | Without choices, an error object gives "API error: " plus its message. An absent message reads "Unknown error" and a null one "None". |
| Server.ReplyOtherwiseUnsure | server/server.py:175-176 | Without choices or error, the reply is "I'm not sure how to respond.". |
| Server.ReplyShapes | server/server.py:166-182 | A failed model call gives "Sorry, I had trouble thinking. Try again.". Every reply is the trouble text, the unsure text, the first choice's content, or an API-error text. |
| Server.TranscriptBounded | server/server.py:59-191 | A session sends at most one message per frame. |
| Server.ResponsesMatchUserInputs | server/server.py:94-191 | In a session of decodable frames whose tokens are all minted, the number of responses equals the number of `user_input` frames. |
| Server.FailedMintEndsSession | server/server.py:70-91 | A `get_token` whose mint raises ends the session there: nothing is sent and nothing is requested, for it or for any later frame. |
| Server.MintedTokenSent | server/server.py:87-91 | A minted token is sent together with the configured LiveKit URL. |
| Server.CloseEndsSession | server/server.py:193-197 | The transcript is exactly what was sent before the first closing frame. |
| SimTypes.Utilization | simulation-engine/src/simulators/creditCard.js:125 | For a positive limit, utilization exceeds 100 exactly when the outstanding exceeds the limit. It is non-negative exactly when the outstanding is. |
| Financials.CalculateMonthlyInterest | simulation-engine/src/utils/financials.js:1-4 | A zero principal or rate gives no interest. Non-negative inputs give non-negative interest. |
| Financials.MonthlyInterestFormula | simulation-engine/src/utils/financials.js:1-4 | The interest is always principal × annual rate / 1200. |
| Financials.MonthlyInterestMonotone | simulation-engine/src/utils/financials.js:1-4 | At a non-negative rate, a larger principal never earns less interest. |
| Financials.CalculatePMI | simulation-engine/src/utils/financials.js:6-10 | The mortgage-insurance placeholder is always 0. |
| CreditCardSim.Available | simulation-engine/src/simulators/creditCard.js:144-145 | The spare cash is `max(0, balance − buffer)`. |
| CreditCardSim.MinimumPayment | simulation-engine/src/simulators/creditCard.js:117-127 | Pays the card's minimum due from cash. Proved in `CreditCardSim.MinimumAndFullAmounts` and `CreditCardSim.CardStrategiesPayFromCash`. |
| CreditCardSim.FullPayment | simulation-engine/src/simulators/creditCard.js:128-138 | Pays the whole outstanding from cash. Proved in `CreditCardSim.MinimumAndFullAmounts` and `CreditCardSim.CardStrategiesPayFromCash`. |
| CreditCardSim.OptimizedPartial | simulation-engine/src/simulators/creditCard.js:139-170 | Pays the larger of the minimum due and the spare cash, capped at the outstanding. Proved in `CreditCardSim.OptimizedPartialAmount` and `CreditCardSim.OptimizedPartialKeepsBuffer`. |
| CreditCardSim.UserDefined | simulation-engine/src/simulators/creditCard.js:171-181 | Pays the user's amount, or 0 when there is none. Proved in `CreditCardSim.UserDefinedDefaultsToZero`. |
| CreditCardSim.CardStrategiesPayFromCash | simulation-engine/src/simulators/creditCard.js:117-181 | Every card strategy pays from cash and lowers the balance by the amount. Utilization is the remaining outstanding over the limit, and nothing is added to the card. |
| CreditCardSim.MinimumAndFullAmounts | simulation-engine/src/simulators/creditCard.js:117-138 | `minimum_payment` pays the minimum due. `full_payment` pays the whole outstanding with utilization 0. |
| CreditCardSim.OptimizedPartialAmount | simulation-engine/src/simulators/creditCard.js:139-170 | `optimized_partial` pays `max(min_due, min(spare cash, outstanding))`. |
| CreditCardSim.OptimizedPartialKeepsBuffer | simulation-engine/src/simulators/creditCard.js:139-170 | When the capped amount covers the minimum, `optimized_partial` never takes the balance below the buffer, or below its start when it is already under the buffer. |
| CreditCardSim.UserDefinedDefaultsToZero | simulation-engine/src/simulators/creditCard.js:171-181 | A null, missing or zero user amount pays nothing. |
| EmiSim.ScheduledTotalAppend | simulation-engine/src/simulators/emi.js:23-25 | The scheduled total of two lists together is the sum of their totals. |
| EmiSim.ScheduledTotalNonNegative | simulation-engine/src/simulators/emi.js:23-25 | Non-negative instalments give a non-negative scheduled total. |
| EmiSim.PayEmi | simulation-engine/src/simulators/emi.js:3-33 | Pays the scheduled instalments of the EMIs with months left. Proved in `EmiSim.PayEmiPaysActiveOnly` and `EmiSim.EmiStrategiesPayFromCash`. |
| EmiSim.PrepayPartial | simulation-engine/src/simulators/emi.js:34-65 | Pays the schedule plus the extra. Proved in `EmiSim.PrepayAtLeastScheduled`, `EmiSim.PrepayGivenAmount`, `EmiSim.PrepayNullAmount` and `EmiSim.PrepayMissingAmount`. |
| EmiSim.SkipEmi | simulation-engine/src/simulators/emi.js:66-74 | Pays nothing. Proved in `EmiSim.SkipEmiPaysNothing`. |
| EmiSim.EmiStrategiesPayFromCash | simulation-engine/src/simulators/emi.js:3-74 | Every EMI strategy pays from cash, lowers the balance by the amount, and reports no utilization. |
| EmiSim.PayEmiPaysActiveOnly | simulation-engine/src/simulators/emi.js:3-33 | An EMI with no months left adds nothing to what `pay_emi` pays. |
| EmiSim.PrepayAtLeastScheduled | simulation-engine/src/simulators/emi.js:34-65 | The extra is never negative, so `prepay_partial` pays at least `pay_emi`. |
| EmiSim.PrepayGivenAmount | simulation-engine/src/simulators/emi.js:46-47 | A user amount above the schedule is paid exactly. An amount at or below it pays the schedule. |
| EmiSim.PrepayNullAmount | simulation-engine/src/simulators/emi.js:48-50 | A null amount pays the schedule plus the cash above buffer and schedule. A balance that covers both ends exactly at the buffer. |
| EmiSim.PrepayMissingAmount | simulation-engine/src/simulators/emi.js:46-57 | An absent amount pays just the schedule. |
| EmiSim.SkipEmiPaysNothing | simulation-engine/src/simulators/emi.js:66-74 | `skip_emi` pays 0 and keeps the balance. |
| EmergencySim.PayWithCashSpendsAmount | simulation-engine/src/simulators/emergency.js:3-11 | Paying cash spends the whole emergency amount. |
| EmergencySim.PayWithCreditMovesAll | simulation-engine/src/simulators/emergency.js:12-28 | Paying by card keeps the balance and adds the whole amount to the card. |
| EmergencySim.SplitConservesTotal | simulation-engine/src/simulators/emergency.js:29-49 | Cash plus card part equal the total, and the cash part is `min(max(0, balance − buffer), total)`. |
| EmergencySim.SplitKeepsBuffer | simulation-engine/src/simulators/emergency.js:29-49 | A split never takes a balance at or above the buffer below it. A balance already below the buffer is left as it is. |
| EmergencySim.PayWithCash | simulation-engine/src/simulators/emergency.js:3-11 | Pays the emergency from cash. Proved in `EmergencySim.PayWithCashSpendsAmount`. |
| EmergencySim.PayWithCredit | simulation-engine/src/simulators/emergency.js:12-28 | Puts the emergency on the card. Proved in `EmergencySim.PayWithCreditMovesAll`. |
| EmergencySim.SplitPayment | simulation-engine/src/simulators/emergency.js:29-49 | Pays cash down to the buffer and puts the rest on the card. Proved in `EmergencySim.SplitConservesTotal` and `EmergencySim.SplitKeepsBuffer`. |
| Projection.CardMinDue | simulation-engine/src/utils/projection.js:54-69 | The projected minimum due never exceeds the outstanding. |
| Projection.CardMinDueIsCappedMinimum | simulation-engine/src/utils/projection.js:65-68 | The projected due is `min(min_due, outstanding)`, or 5% of the outstanding when `min_due` is 0. It is non-negative for a non-negative `min_due`. |
| Projection.PayEmisSpec | simulation-engine/src/utils/projection.js:76-92 | One month's EMI pass keeps the list length and ticks an EMI only if it had months left. It keeps a non-negative balance non-negative, has penalties only with a miss, and never raises the balance for non-negative instalments. |
| Projection.PayEmisPaysWhenCovered | simulation-engine/src/utils/projection.js:76-92 | An EMI loses a month exactly when it has months left and the balance left by the EMIs before it covers its instalment. The pass takes exactly the paid EMIs' instalments from the balance. |
| Projection.PayEmisMissedExactly | simulation-engine/src/utils/projection.js:76-92 | A pass records a miss exactly when some EMI with months left goes unpaid. |
| Projection.PayEmisChargesMissedPenalties | simulation-engine/src/utils/projection.js:76-92 | A pass charges exactly the sum of `missPenalty` over the EMIs with months left that it leaves unpaid (`Projection.MissedPenalties`). |
| Projection.PayEmis | simulation-engine/src/utils/projection.js:76-92 | One month's EMI pass in list order. Proved in `Projection.PayEmisSpec`, `Projection.PayEmisPaysWhenCovered`, `Projection.PayEmisMissedExactly` and `Projection.PayEmisChargesMissedPenalties`. |
| Projection.MonthStep | simulation-engine/src/utils/projection.js:21-111 | One month of the projection loop. Proved in `Projection.MonthStepParts`, `Projection.MonthStepNonIncreasing`, `Projection.MissStep` and `Projection.BreachStep`. |
| Projection.Project | simulation-engine/src/utils/projection.js:3-120 | The projection over the horizon. Proved in `Projection.ZeroHorizon`, `Projection.MissMonthIsFirst` and `Projection.BreachMonthIsFirst`. |
| Projection.MonthStepParts | simulation-engine/src/utils/projection.js:21-111 | The month step, field by field, in the loop's order: interest, EMIs, card minimum, breach. |
| Projection.ProjectMonth | simulation-engine/src/utils/projection.js:22-111 | One pass of the month loop, in the source's order, leaves the loop variables equal to the month step. |
| Projection.PayEmisInOrder | simulation-engine/src/utils/projection.js:76-92 | The EMI loop computes the month's EMI pass. |
| Projection.ProjectState | simulation-engine/src/utils/projection.js:3-120 | The projection loop computes the projection over the horizon. |
| Projection.ZeroHorizon | simulation-engine/src/utils/projection.js:21 | A horizon of 0 or less gives no interest, no penalties and no events. |
| Projection.RemainingMonthsBounds | simulation-engine/src/utils/projection.js:76-92 | Over any horizon each EMI keeps its terms. Its months to run never grow, and never go below 0 from a non-negative start. |
| Projection.BalanceNonNegative | simulation-engine/src/utils/projection.js:79-97 | A non-negative starting balance stays non-negative in every month. |
| Projection.MonthStepNonIncreasing | simulation-engine/src/utils/projection.js:21-111 | With non-negative payments, a month never raises the balance. |
| Projection.BalanceNeverIncreases | simulation-engine/src/utils/projection.js:21-111 | With non-negative payments, the balance never rises from month to month nor above the start. |
| Projection.MissMonthIsFirst | simulation-engine/src/utils/projection.js:76-92 | `emi_miss_month` is the first month with a missed EMI, and null exactly when none is missed. Without a miss there are no penalties. |
| Projection.BreachMonthIsFirst | simulation-engine/src/utils/projection.js:109-111 | `cash_buffer_breach_month` is the first month that ends below the buffer, and null exactly when none does. |
| Projection.FirstMonthIsFirst | simulation-engine/src/utils/projection.js:84 | A month recorded only while none is recorded yet is the first month whose condition holds, and none is recorded exactly when no month's does. |
| Projection.MissMonthRecurrence | simulation-engine/src/utils/projection.js:76-92 | `emi_miss_month` is recorded by that first-month rule over the months with a miss, and while it is null no penalty has been added. |
| Projection.BreachMonthRecurrence | simulation-engine/src/utils/projection.js:109-111 | `cash_buffer_breach_month` is recorded by that first-month rule over the months ending below the buffer. |
| Projection.NoMissNoPenalties | simulation-engine/src/utils/projection.js:82-89 | An EMI pass without a miss adds no penalty. |
| Projection.MissStep | simulation-engine/src/utils/projection.js:76-92 | A month records its own number as the miss month only when none is recorded and its EMI pass misses. It adds that pass's penalties. |
| Projection.BreachStep | simulation-engine/src/utils/projection.js:109-111 | A month records its own number as the breach month only when none is recorded and it ends below the buffer. |
| Engine.ParseIntent | simulation-engine/src/engine.js:7-11 | A recognised intent has exactly its name. An unrecognised string is none of the three names. |
| Engine.ParseIntentName | simulation-engine/src/engine.js:7-25 | Every intent name is recognised as that intent. |
| Engine.RunStrategy | simulation-engine/src/engine.js:46-56 | Running a strategy raises exactly when it reads an absent card or emergency. A missing emergency raises that error. |
| Engine.DecrementActive | simulation-engine/src/engine.js:85-88 | `pay_emi` takes one month off exactly the EMIs with months left, keeps every other field, and never goes below 0. |
| Engine.FirstActive | simulation-engine/src/engine.js:134 | `find` returns the first EMI with months left, or nothing when there is none. |
| Engine.FindActive | simulation-engine/src/engine.js:134 | The search loop returns the index `find` would pick: the first EMI with months left, or none. |
| Engine.PostAction | simulation-engine/src/engine.js:58-151 | The post-action obligations have a card exactly when the input does, with the same limit. The EMIs are decremented under `pay_emi`, prepaid under `prepay_partial`, and unchanged for every other strategy. The EMI intent never touches the card. |
| Engine.Prepaid | simulation-engine/src/engine.js:111-140 | The EMIs after `prepay_partial`: this month is paid, then the spare money shortens the first EMI with months left. Proved in `Engine.PrepaidRemains` and `Engine.PrepayEmis`. |
| Engine.Reduced | simulation-engine/src/engine.js:136-138 | The target loses `floor(available / monthly_emi)` months, clamped at 0. Proved in `Engine.ReducedRemains`. |
| Engine.PostActionCard | simulation-engine/src/engine.js:72-149 | A card payment lowers the outstanding by the amount, floored at 0. A card or split emergency adds its increase. EMI strategies leave the card alone. |
| Engine.ReducedRemains | simulation-engine/src/engine.js:136-138 | Prepaying with a positive remainder never lengthens an EMI with non-negative instalments, and never takes it below 0. |
| Engine.PrepaidRemains | simulation-engine/src/engine.js:111-140 | With non-negative instalments, `prepay_partial` keeps the list length and each EMI's terms, and never raises or negates its months. |
| Engine.Evaluate | simulation-engine/src/engine.js:46-201 | One strategy's result fails exactly when the simulator raises, and it carries the strategy's id. It is valid exactly when the balance keeps the buffer, no projected month breaches it or misses an EMI, and any utilization is within the bound. Each risk flag holds exactly under its condition. The utilization is the strategy's own when it reports one, none without a card, and otherwise the utilization of the card after the action. For an EMI strategy and for `pay_with_cash`, that is the card's current utilization, so paying an emergency in cash is invalid whenever the card is already over the bound. |
| Engine.Valid | simulation-engine/src/engine.js:167-181 | The per-strategy validity rule. Stated both ways in `Engine.Evaluate`. |
| Engine.Flags | simulation-engine/src/engine.js:161-165 | The three risk flags. Stated in `Engine.Evaluate`. |
| Engine.Recalculated | simulation-engine/src/engine.js:175-180 | The reported utilization, or the card's when none is reported. Stated in `Engine.Evaluate`. |
| Engine.EvaluateAll | simulation-engine/src/engine.js:32-202 | The applicable strategies' results in order, or the first error. Proved in `Engine.FailureSticks`, `Engine.ResultIds` and `Engine.EvaluatedValidHasNoMiss`. |
| Engine.DecrementEmis | simulation-engine/src/engine.js:85-88 | The loop computes the `pay_emi` post-action EMIs. |
| Engine.PrepayEmis | simulation-engine/src/engine.js:118-140 | The loops compute the `prepay_partial` post-action EMIs. |
| Engine.ApplyPostAction | simulation-engine/src/engine.js:58-151 | The inference step computes the post-action obligations. |
| Engine.EvaluateStrategy | simulation-engine/src/engine.js:46-201 | The body of the per-strategy loop computes that strategy's result. |
| Engine.FailureSticks | simulation-engine/src/engine.js:32-202 | Once one strategy raises, the whole evaluation raises that error. |
| Engine.EvaluateStrategies | simulation-engine/src/engine.js:30-202 | The `forEach` evaluates the intent's strategy list in order. |
| Engine.Demoted | simulation-engine/src/engine.js:204-213 | Cross-validation keeps the number of results. It changes nothing when no valid result is free of misses. Otherwise it invalidates exactly the results with a missed EMI, and a result without a miss is never touched. |
| Engine.DemotedHasNoValidMiss | simulation-engine/src/engine.js:204-213 | When a valid result misses no EMI, afterwards no valid result misses one, and such a valid result remains. Only `valid` changes, and only from true to false. |
| Engine.CrossValidationNoOp | simulation-engine/src/engine.js:204-213 | When no valid result misses an EMI, cross-validation changes nothing. |
| Engine.EvaluatedValidHasNoMiss | simulation-engine/src/engine.js:167-181 | Per-strategy validity already excludes a missed EMI. |
| Engine.CrossValidate | simulation-engine/src/engine.js:204-213 | The demotion loop computes the cross-validated results. |
| Engine.BeforeOrder | simulation-engine/src/engine.js:224-249 | Both selection orders are strict weak orders, so a stable sort puts the first minimal element first. |
| Engine.RecommendationUnique | simulation-engine/src/engine.js:215-251 | At most one index is the recommendation. |
| Engine.Recommend | simulation-engine/src/engine.js:215-251 | The selection picks the first minimal candidate: among the valid results when there are any, otherwise among all. When any result is valid, the chosen one is valid. |
| Engine.RejectedAll | simulation-engine/src/engine.js:258-263 | When no result has the recommended name, every result gets a rejection reason. |
| Engine.Rejected | simulation-engine/src/engine.js:258-263 | The reasons for every result not named as the recommendation, in order. Proved in `Engine.RejectedAll` and `Engine.RejectedOnePerOther`. |
| Engine.Reason | simulation-engine/src/engine.js:261-262 | "Violated constraints" for an invalid result, "Higher cost or risk" for a valid one. |
| Engine.RejectedOnePerOther | simulation-engine/src/engine.js:258-263 | With distinct names, exactly one reason is listed per non-recommended strategy. |
| Engine.ResultIds | simulation-engine/src/engine.js:32-47 | The results are the applicable strategies, in list order. |
| Engine.ApplicableIdsOf | simulation-engine/src/engine.js:13-44 | The card strategies run with `user_defined` only for a non-null amount. The EMI strategies run with `prepay_partial` only when some EMI allows prepayment. All three emergency strategies run. |
| Engine.ApplicableNamesDistinct | simulation-engine/src/engine.js:13-44 | The applicable strategies have distinct names, and there are at least two. |
| Engine.NameInjective | simulation-engine/src/engine.js:13-44 | Distinct strategies have distinct names. |
| Engine.MissingObligationRaises | simulation-engine/src/engine.js:46-56 | A card intent without a card raises the missing-card error. An emergency intent without an emergency raises the missing-emergency error. |
| Engine.ProcessSimulation | simulation-engine/src/engine.js:19-277 | An unknown intent raises. A raising strategy raises its error. Otherwise the decision holds every result, recommends the selected one with its cost, and rejects every other strategy. It lists at least two strategies and recommends a valid one whenever one exists. |

## Left out

- Clock, token minting, network: the current date and time, the LiveKit access-token minting, the HTTP client, the room transport and the WebSocket send are not modelled. A `send_json` that raises, for example after the browser has gone, ends the session through the outer `except`; the model counts every message it emits as sent. Each frame carries the minted token, or none when minting raises. The model call's outcome is an input to each turn. Whether the room accepts the reply and the apology are two boolean parameters.
- Concurrency: the task `agent/main.py` spawns per message, and concurrent WebSocket sessions, are not modelled. Turns and frames are processed one after another.
- Prompts: the system-prompt texts and the LLM model name are parameters. Their wording is not modelled.
- Encodings: UTF-8 decoding of data packets and JSON encoding and decoding are not modelled. A frame is either a decoded object or `Malformed`.
- Character case: `lower()` is modelled for ASCII letters only. Other characters are left unchanged.
- Server.ReplyText: a `content` of JSON null, and `choices` that is not a list, are not modelled separately. An error `message` that is a number, list or object, which Python's `str()` would render, is not modelled; a string, a null and an absent message are.
- Logging: print and log output is not modelled.
- Floating point: rounding with `toFixed(2)` on amounts, balances, utilization and projected totals is not modelled. Nor are IEEE doubles, `Infinity` or `NaN`; the engine works on exact reals. As a consequence, `Engine.Reason` covers only the rejected reasons, and the primary-reason sentence, which formats `totalCost.toFixed(2)`, is not produced.
- Engine.ProcessSimulation: requires a non-zero credit limit whenever a card is present, because a zero limit makes the source's utilization `Infinity` or `NaN`.
- Engine.ProcessSimulation: a missing `emis` list is modelled as an empty list, where the source's `.some` and `.reduce` would throw.
- Engine.ProcessSimulation: a missing `emergency.amount` is not modelled.
- Engine.ProcessSimulation: intent strings that name inherited object properties (such as "constructor") are not modelled; they are unknown intents here.
- Engine.Recommend: the valid-branch sort treats costs within 0.01 of each other as tied and then compares balances. That comparison is not transitive. The model takes the first minimal result by exact cost, then higher balance. The two agree whenever any two costs are either equal or more than 0.01 apart.
- Engine.PrepaidRemains: requires non-negative monthly instalments, because a negative instalment makes the floor negative and would lengthen the target EMI.
- Projection.ProjectState: the source's `emiTotal` (projection.js lines 41-48) is computed but never used. It is not modelled.
- The separate `runProjection` helper in `creditCard.js` is not used by the engine and is not modelled.
- `horizon_months` is an integer. Fractional horizons are not modelled.
- Failed turns: a chat context is meant to alternate strictly between user and assistant messages. A failed model call records no assistant message, so the next turn puts two user messages side by side. The model follows the code, and `Turn.FailureBreaksAlternation` shows the two adjacent user messages.
