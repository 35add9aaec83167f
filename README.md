# Car insurance Telegram bot: the conversation state machine

This project models, in Dafny, the per-chat conversation that the car-insurance
Telegram bot runs to sell a policy: `/start` opens a session awaiting the
passport; a passport photo (read by OCR) or a typed passport line is shown for
confirmation; the vehicle registration document follows the same way; the bot
then offers a fixed price of 100 and, when the offer is accepted and both
records are present, sends the policy document and marks the session
Completed. Every chat's session lives in an in-memory session repository
keyed by chat id.

The repository holds four revisions of the update handler, which disagree
on details, so each is its own module:

- `BotService` — `CarInsuranceTelegramBot/Services/BotService/BotUpdateHandler.cs`,
  the newest: manual entry with range checks against the current year, a
  country step whose OCR profile (`MindeeSettings.GetForCountry`) decides
  whether the document has a back page, a process-wide buffer of pending
  document pages, and Gemini answers to text it does not understand.
- `ServicesHandler` — `CarInsuranceTelegramBot/Services/BotUpdateHandler.cs`:
  front and back of the vehicle document read separately and merged, manual
  entry checked for format only.
- `RootHandler` — `CarInsuranceTelegramBot/BotUpdateHandler.cs`: the same
  conversation with inline replies, `restart` honoured in every state and
  button presses acknowledged after they are handled.
- `InsuranseHandler` — `CarInsuranseTelegramBot/BotUpdateHandler.cs`, the
  original project: one photo per document, no manual entry, its own
  eight-state session and whole-record repository.

Each handler is a class holding its repository and the replies it has sent
(`outbox`); every handler method is proved to perform a pure step function of
its module on a snapshot of that state (`World`). Lemmas about the step
functions state what the source promises: `/start` resets, the tables of
buttons each state honours, what manual entry and photos store, that a
session becomes Completed only in an update that sends the policy document,
and that an update changes no other chat's record. Exceptions are a `fault`
flag caught where the C# code catches them. What the handler learns from
outside — OCR results, Gemini answers, whether the document reached the chat,
the current year — is an `Env` parameter.

Shared modules: `Models` (sessions of the newer project), `Repository` and
`InsuranseRepository` (the two `UserSessionRepositoryInMemory` classes),
`Conversation` (the store and outbox of the two intermediate revisions),
`ManualEntry` (parsing a typed `;`-separated line), `Text`, `Numbers` and
`Dates` (the `Split`, `Trim`, `int.Parse` and `DateTime.ParseExact`
behaviour the handlers rely on), `Telegram` (updates and replies),
`Callbacks` (button payloads), `BotKeyboards`, `BotMessages` and
`MindeeSettings`.

## Model

| member | source | states |
|---|---|---|
| Text.Trim | CarInsuranceTelegramBot/Services/BotService/BotUpdateHandler.cs:831 | `Trim()` strips white space from both ends, keeps an already trimmed string and empties an all-white one |
| Text.TrimStart | CarInsuranceTelegramBot/Services/BotService/BotUpdateHandler.cs:831 | the leading white space is removed and nothing else |
| Text.TrimEnd | CarInsuranceTelegramBot/Services/BotService/BotUpdateHandler.cs:831 | the trailing white space is removed and nothing else |
| Text.Split | CarInsuranceTelegramBot/Services/BotService/BotUpdateHandler.cs:241 | `Split(';')` yields one more part than separators, parts free of the separator, and joining them back gives the input |
| Text.SplitTrimmed | CarInsuranceTelegramBot/Services/BotService/BotUpdateHandler.cs:241 | `StringSplitOptions.TrimEntries` trims each part of the plain split and keeps their number |
| Text.SplitOfJoin | CarInsuranceTelegramBot/Services/BotService/BotUpdateHandler.cs:241 | splitting parts joined by the separator gives the parts back |
| Text.SplitTrimmedOfJoin | CarInsuranceTelegramBot/Services/BotService/BotUpdateHandler.cs:241 | the same round trip for trimmed fields |
| Text.TrimPadded | CarInsuranceTelegramBot/Services/BotService/BotUpdateHandler.cs:831 | white space around a trimmed text is removed by `Trim()` |
| Numbers.ParseInt32 | CarInsuranceTelegramBot/Services/BotService/BotUpdateHandler.cs:419 | `int.Parse` succeeds exactly on an optionally signed digit string (surrounding white space allowed) whose value fits in Int32; a well-formed value outside Int32 is an overflow, not a format error |
| Numbers.ParseShow | CarInsuranceTelegramBot/Services/BotService/BotUpdateHandler.cs:419 | `int.Parse` reads back every Int32 written in decimal |
| Numbers.ParseShowOverflow | CarInsuranceTelegramBot/Services/BotService/BotUpdateHandler.cs:419 | a decimal outside Int32 fails with the overflow error |
| Numbers.ParsePadded | CarInsuranceTelegramBot/Services/BotService/BotUpdateHandler.cs:419 | leading or trailing white space does not change what `int.Parse` reads |
| Dates.ParseExact | CarInsuranceTelegramBot/Services/BotService/BotUpdateHandler.cs:259-261 | `DateTime.ParseExact(s, "dd.MM.yyyy")` accepts only a calendar-valid date whose formatting is `s` |
| Dates.ParseFormat | CarInsuranceTelegramBot/Services/BotService/BotUpdateHandler.cs:259-261 | every valid date formatted as dd.MM.yyyy parses back to itself |
| Dates.Format | CarInsuranceTelegramBot/Services/BotService/BotUpdateHandler.cs:259-261 | a formatted date has ten characters, digits with dots at positions 2 and 5 |
| Dates.DaysInMonth | CarInsuranceTelegramBot/Services/BotService/BotUpdateHandler.cs:259-261 | a month has 28 to 31 days, by the Gregorian leap-year rule |
| Models.NewSession | CarInsuranceTelegramBot/Services/BotService/BotUpdateHandler.cs:677-681 | a new session has the given chat and state and no passport, vehicle or country |
| InsuranseModels.NewSession | CarInsuranseTelegramBot/BotUpdateHandler.cs:306-310 | a new session of the original revision has the given chat and state and no passport or vehicle |
| ManualEntry.Fields | CarInsuranceTelegramBot/Services/BotService/BotUpdateHandler.cs:241-242 | the typed text splits on `;` into trimmed fields, one more than there are separators |
| ManualEntry.PassportFromFields | CarInsuranceTelegramBot/Services/BotService/BotUpdateHandler.cs:255-262 | a passport is built exactly when the three date fields parse as dd.MM.yyyy; name and number are the first two fields, each date formats back to its field |
| ManualEntry.VehicleFromFields | CarInsuranceTelegramBot/Services/BotService/BotUpdateHandler.cs:414-421 | a vehicle is built exactly when `int.Parse` reads the year field; otherwise its error (format or overflow) is returned; the other fields land in VIN, Make, Model and RegistrationNumber in that order |
| ManualEntry.PassportLineRoundTrip | CarInsuranceTelegramBot/Services/BotService/BotUpdateHandler.cs:241-262 | a passport typed in the documented format is read back unchanged |
| ManualEntry.VehicleLineRoundTrip | CarInsuranceTelegramBot/Services/BotService/BotUpdateHandler.cs:414-421 | a vehicle typed in the documented format, with an Int32 year, is read back unchanged |
| ManualEntry.OverflowingYear | CarInsuranceTelegramBot/Services/BotService/BotUpdateHandler.cs:419 | a year beyond Int32 gives the overflow error, which the `catch (FormatException)` does not handle |
| BotKeyboards.Payloads | CarInsuranceTelegramBot/BotSettings/BotKeyboards.cs:11-99 | every button's payload is among the payloads of its keyboard; a reply without a keyboard has none |
| BotKeyboards.PassportConfirmationPayloads | CarInsuranceTelegramBot/BotSettings/BotKeyboards.cs:11-20 | the passport confirmation keyboard offers exactly confirmPassport, retryPassport, manualPassport |
| BotKeyboards.ExtractionFailedPayloads | CarInsuranceTelegramBot/BotSettings/BotKeyboards.cs:22-72 | each extraction-failed keyboard offers exactly its retry payload and a manual-entry payload |
| BotKeyboards.ExtractionFailedNeverConfirms | CarInsuranceTelegramBot/BotSettings/BotKeyboards.cs:22-72 | no extraction-failed keyboard offers a confirming payload |
| BotKeyboards.VehicleConfirmationPayloads | CarInsuranceTelegramBot/BotSettings/BotKeyboards.cs:32-83 | the front, back and whole-document confirmation keyboards offer exactly their three payloads |
| BotKeyboards.PricePayloads | CarInsuranceTelegramBot/BotSettings/BotKeyboards.cs:85-99 | the price keyboard offers agreePrice and declinePrice; the declined-offer keyboard agreePrice and restart |
| BotKeyboards.PayloadsWithinVocabulary | CarInsuranceTelegramBot/BotSettings/BotKeyboards.cs:11-99 | every payload of every keyboard lies in the fixed vocabulary |
| Callbacks.Decode | CarInsuranceTelegramBot/Services/BotService/BotUpdateHandler.cs:349-390 | a `switch` on the payload selects an action only for that action's own payload; a missing payload selects none |
| Callbacks.DecodePayload | CarInsuranceTelegramBot/BotSettings/BotKeyboards.cs:11-99 | every action's payload selects that action |
| Callbacks.VocabularyDecodes | CarInsuranceTelegramBot/BotSettings/BotKeyboards.cs:11-99 | every keyboard payload selects a named action |
| BotMessages.GetUnrecognizedMessage | CarInsuranceTelegramBot/Services/BotService/BotSettings/BotMessages.cs:20-37 | the reminder is the fixed "didn't quite understand" prefix followed by exactly the instruction for the state |
| BotMessages.PromptStates | CarInsuranceTelegramBot/Services/BotService/BotSettings/BotMessages.cs:25-33 | AwaitingPassport, EnteringPassportData, AwaitingVehicleFront, AwaitingVehicleBack and EnteringVehicleData reuse their input prompts |
| BotMessages.UseStartStates | CarInsuranceTelegramBot/Services/BotService/BotSettings/BotMessages.cs:34 | exactly None, ConfirmingVehicleDocFront, ConfirmingVehicleDocBack, GeneratingPolicy and Completed get the "use /start" instruction |
| BotMessages.SameReminderIffSameInstruction | CarInsuranceTelegramBot/Services/BotService/BotSettings/BotMessages.cs:23-35 | two states get the same reminder exactly when they get the same instruction |
| BotMessages.PassportDataConfirmationPrompt | CarInsuranceTelegramBot/Services/BotService/BotSettings/BotMessages.cs:87-88 | the confirmation prompt carries the passport it shows |
| MindeeSettings.GetForCountry | CarInsuranceTelegramBot/Services/Mindee/MindeeSettings.cs:13-23 | the lookup fails exactly when there is no code, or the code is unknown and there is no "Default" entry |
| MindeeSettings.KnownCountry | CarInsuranceTelegramBot/Services/Mindee/MindeeSettings.cs:15-16 | a known code gives its stored profile |
| MindeeSettings.UnknownCountryFallsBack | CarInsuranceTelegramBot/Services/Mindee/MindeeSettings.cs:17-22 | an unknown code gives the "Default" endpoints and back-page flag |
| MindeeSettings.DefaultMakesTotal | CarInsuranceTelegramBot/Services/Mindee/MindeeSettings.cs:13-23 | with a "Default" entry every code resolves, and its back-page flag is the known or the default one |
| Telegram.StartCommandPadded | CarInsuranceTelegramBot/Services/BotService/BotUpdateHandler.cs:831 | text that trims to `/start` is the command, and a message without text is not |
| Repository.UserSessionRepositoryInMemory.constructor | CarInsuranceTelegramBot/Repository/UserSessionRepositoryInMemory.cs:11-15 | the store starts empty |
| Repository.UserSessionRepositoryInMemory.Add | CarInsuranceTelegramBot/Repository/UserSessionRepositoryInMemory.cs:17-22 | a record is added under its chat id when the chat has none; otherwise nothing changes |
| Repository.UserSessionRepositoryInMemory.Delete | CarInsuranceTelegramBot/Repository/UserSessionRepositoryInMemory.cs:24-35 | the chat's record is removed; `found` tells whether there was one |
| Repository.UserSessionRepositoryInMemory.Get | CarInsuranceTelegramBot/Repository/UserSessionRepositoryInMemory.cs:37-38 | the chat's record when there is one, and nothing otherwise |
| InsuranseRepository.UserSessionRepositoryInMemory.constructor | CarInsuranseTelegramBot/Repository/UserSessionRepositoryInMemory.cs:10-14 | the store starts empty |
| InsuranseRepository.UserSessionRepositoryInMemory.Add | CarInsuranseTelegramBot/Repository/UserSessionRepositoryInMemory.cs:16-21 | a record is added under its chat id when the chat has none; otherwise nothing changes |
| InsuranseRepository.UserSessionRepositoryInMemory.Delete | CarInsuranseTelegramBot/Repository/UserSessionRepositoryInMemory.cs:23-33 | the chat's record is removed; `found` tells whether there was one |
| InsuranseRepository.UserSessionRepositoryInMemory.Get | CarInsuranseTelegramBot/Repository/UserSessionRepositoryInMemory.cs:35-36 | the chat's record when there is one, and nothing otherwise |
| Repository.UserSessionRepositoryInMemory.Update | CarInsuranceTelegramBot/Repository/UserSessionRepositoryInMemory.cs:40-89 | the store becomes the merged store: only the argument's chat, only when stored |
| InsuranseRepository.UserSessionRepositoryInMemory.Update | CarInsuranseTelegramBot/Repository/UserSessionRepositoryInMemory.cs:38-49 | the given session replaces the stored record of its chat when there is one |
| Repository.GetAfterAdd | CarInsuranceTelegramBot/Repository/UserSessionRepositoryInMemory.cs:17-38 | after adding a session for a chat without one, the chat returns it and other chats are unchanged |
| Repository.GetAfterDelete | CarInsuranceTelegramBot/Repository/UserSessionRepositoryInMemory.cs:24-35 | after a delete the chat has no record, other chats are unchanged, and deleting an absent chat is a no-op |
| Repository.UpdateAbsent | CarInsuranceTelegramBot/Repository/UserSessionRepositoryInMemory.cs:47-51 | an update for a chat without a record changes nothing |
| Repository.UpdateOnlyOwnChat | CarInsuranceTelegramBot/Repository/UserSessionRepositoryInMemory.cs:42-45 | an update touches no other chat and adds no chat |
| Repository.UpdateMergesRecords | CarInsuranceTelegramBot/Repository/UserSessionRepositoryInMemory.cs:54-84 | state and country are copied; a present passport or vehicle overwrites the stored one, a missing one keeps it |
| Repository.UpdateKeepsRecords | CarInsuranceTelegramBot/Repository/UserSessionRepositoryInMemory.cs:57-84 | an update never loses a stored passport or vehicle |
| Repository.UpdateIdempotent | CarInsuranceTelegramBot/Repository/UserSessionRepositoryInMemory.cs:40-89 | updating twice with the same session is the same as once |
| Repository.UpdateWithStoredRecord | CarInsuranceTelegramBot/Repository/UserSessionRepositoryInMemory.cs:40-89 | updating with the stored record itself changes nothing |
| Repository.UpdateWithChangedRecord | CarInsuranceTelegramBot/Repository/UserSessionRepositoryInMemory.cs:40-89 | a record that keeps the stored passport and vehicle, or supplies new ones, is stored exactly as given |
| Repository.UpdateSuperseded | CarInsuranceTelegramBot/Repository/UserSessionRepositoryInMemory.cs:40-89 | a later update with at least the same records of the same chat overrides an earlier one |
| Repository.UpdateKeepsKeysMatch | CarInsuranceTelegramBot/Repository/UserSessionRepositoryInMemory.cs:42-45 | after an update every record is still under its own chat id |
| InsuranseRepository.GetAfterAdd | CarInsuranseTelegramBot/Repository/UserSessionRepositoryInMemory.cs:16-36 | after adding a session for a chat without one, the chat returns it and other chats are unchanged |
| InsuranseRepository.GetAfterDelete | CarInsuranseTelegramBot/Repository/UserSessionRepositoryInMemory.cs:23-33 | after a delete the chat has no record; deleting an absent chat is a no-op |
| InsuranseRepository.UpdateReplacesStored | CarInsuranseTelegramBot/Repository/UserSessionRepositoryInMemory.cs:38-49 | the session is stored when its chat has a record, the store is unchanged otherwise, and no other chat is touched |
| Conversation.SessionFor | CarInsuranceTelegramBot/Services/BotUpdateHandler.cs:775-780 | the stored session, or a new unstored one in state None; under matching keys its chat is the asked one |
| Conversation.Restarted | CarInsuranceTelegramBot/Services/BotUpdateHandler.cs:623-649 | the chat gets a fresh AwaitingPassport session, other chats are untouched, and the greeting is the only reply |
| Conversation.WithFront | CarInsuranceTelegramBot/Services/BotUpdateHandler.cs:440-442 | the front side writes RegistrationNumber and Year and keeps VIN, Make and Model (none when there was no record) |
| Conversation.WithBack | CarInsuranceTelegramBot/Services/BotUpdateHandler.cs:501-504 | the back side writes VIN, Model and Make and keeps RegistrationNumber and Year |
| Conversation.FrontBackCommute | CarInsuranceTelegramBot/Services/BotUpdateHandler.cs:440-504 | front then back, or back then front, give the same complete vehicle |
| Conversation.SideIdempotent | CarInsuranceTelegramBot/Services/BotUpdateHandler.cs:440-504 | reading the same side twice is the same as once |
| BotService.SessionFor | CarInsuranceTelegramBot/Services/BotService/BotUpdateHandler.cs:823-828 | the stored session, or a new unstored one in state None |
| BotService.SendUnrecognized | CarInsuranceTelegramBot/Services/BotService/BotUpdateHandler.cs:845-866 | the Gemini answer when there is one, otherwise the state's reminder; store and page buffers unchanged |
| BotService.Start | CarInsuranceTelegramBot/Services/BotService/BotUpdateHandler.cs:669-697 | the pending pages and the stored session are dropped, a fresh AwaitingPassport session is stored, and the greeting is the only reply |
| BotService.PassportEntry | CarInsuranceTelegramBot/Services/BotService/BotUpdateHandler.cs:241-266 | five fields, three dd.MM.yyyy dates, and birth and issue years in [1900, current year], issue not before birth, expiry year at least 1900 and after issue; a wrong field count is told apart |
| BotService.VehicleEntry | CarInsuranceTelegramBot/Services/BotService/BotUpdateHandler.cs:400-423 | five fields and a year `int.Parse` reads within [1900, current year]; an overflowing year is its own outcome |
| BotService.ManualPassportText | CarInsuranceTelegramBot/Services/BotService/BotUpdateHandler.cs:234-287 | a valid passport replaces the session's passport with state ConfirmingPassport and is stored; any failure leaves session and store as they were |
| BotService.ManualVehicleText | CarInsuranceTelegramBot/Services/BotService/BotUpdateHandler.cs:393-444 | a valid vehicle replaces the record wholesale with state ConformingVehicleDoc; a failure changes nothing; an overflowing year escapes as a fault |
| BotService.PassportPhoto | CarInsuranceTelegramBot/Services/BotService/BotUpdateHandler.cs:290-346 | the session moves to ConfirmingPassport and is stored whatever extraction does; the passport is replaced only by an extracted one |
| BotService.DocumentRead | CarInsuranceTelegramBot/Services/BotService/BotUpdateHandler.cs:510-556 | without pending pages the chat gets the error reply; otherwise the pages are dropped whether extraction succeeds or not, and a read vehicle is stored with state ConformingVehicleDoc |
| BotService.VehicleFrontPhoto | CarInsuranceTelegramBot/Services/BotService/BotUpdateHandler.cs:446-480 | the front page replaces the chat's pending pages; the country profile chooses AwaitingVehicleBack or an immediate read; an unresolvable country escapes as a fault after the buffer changed |
| BotService.VehicleBackPhoto | CarInsuranceTelegramBot/Services/BotService/BotUpdateHandler.cs:482-508 | the back page is appended to the pending pages and the document read; without pending pages only the error reply is sent |
| BotService.PassportConfirmationCallbacks | CarInsuranceTelegramBot/Services/BotService/BotUpdateHandler.cs:349-390 | a payload of the passport table stores its target state; any other is answered as invalid and changes nothing |
| BotService.CountryToken | CarInsuranceTelegramBot/Services/BotService/BotUpdateHandler.cs:197 | the code is the piece after the first `_`; a payload without `_` or no payload throws |
| BotService.CountryTokenOf | CarInsuranceTelegramBot/Services/BotService/BotUpdateHandler.cs:197 | a payload `prefix_code` carries `code` |
| BotService.CountryCallback | CarInsuranceTelegramBot/Services/BotService/BotUpdateHandler.cs:196-208 | the code is stored with state AwaitingVehicleFront and the front page requested; a payload without `_` is a fault that changes nothing |
| BotService.VehicleConfirmationCallbacks | CarInsuranceTelegramBot/Services/BotService/BotUpdateHandler.cs:559-618 | a payload of the vehicle table stores its target state; others are invalid; confirming the back page without a vehicle faults after storing |
| BotService.PolicyGenerated | CarInsuranceTelegramBot/Services/BotService/BotUpdateHandler.cs:724-779 | with both records and a delivered document the session becomes Completed and the document is sent; missing data or a failed send leave the session where it was |
| BotService.PriceConfirmationCallbacks | CarInsuranceTelegramBot/Services/BotService/BotUpdateHandler.cs:621-653 | `restart` starts over, `agreePrice` completes the session exactly when both records are present and the document was delivered (otherwise GeneratingPolicy), `declinePrice` keeps the offer; others are invalid |
| BotService.MessageUpdate | CarInsuranceTelegramBot/Services/BotService/BotUpdateHandler.cs:98-183 | changes only the chat's record, keeps every record under its own chat id, and completes no session without sending its policy document |
| BotService.CallbackQueryUpdate | CarInsuranceTelegramBot/Services/BotService/BotUpdateHandler.cs:186-228 | changes only the chat's record, keeps every record under its own chat id, and completes no session without sending its policy document |
| BotService.Recover | CarInsuranceTelegramBot/Services/BotService/BotUpdateHandler.cs:77-94 | the `catch` only replies (Gemini answer or generic error) and changes no record or buffer |
| BotService.Handled | CarInsuranceTelegramBot/Services/BotService/BotUpdateHandler.cs:43-95 | a whole update changes only the chat's record, keeps every record under its own chat id, and completes no session without sending its policy document |
| BotService.HandleMessage | CarInsuranceTelegramBot/Services/BotService/BotUpdateHandler.cs:60-65 | a message that is not `/start` is dispatched on the session's state, an escaping fault being answered by the `catch` |
| BotService.HandleCallback | CarInsuranceTelegramBot/Services/BotService/BotUpdateHandler.cs:66-70 | a button press is acknowledged first and then dispatched |
| BotService.StartResets | CarInsuranceTelegramBot/Services/BotService/BotUpdateHandler.cs:54-58 | `/start` in any state leaves a fresh AwaitingPassport session, no pending pages and only the greeting, other chats untouched |
| BotService.CompletedOnlyAfterIssuance | CarInsuranceTelegramBot/Services/BotService/BotUpdateHandler.cs:764-765 | a session becomes Completed only in an update that sends its chat the policy document |
| BotService.CompletedAnswersAlreadyIssued | CarInsuranceTelegramBot/Services/BotService/BotUpdateHandler.cs:170-177 | in Completed every message and button press but `/start` is answered "already issued" and changes nothing (buttons at :656-664) |
| BotService.ManualPassportUpdate | CarInsuranceTelegramBot/Services/BotService/BotUpdateHandler.cs:234-287 | a typed passport is stored with ConfirmingPassport exactly when it passes validation; otherwise store and buffers stay |
| BotService.ManualVehicleUpdate | CarInsuranceTelegramBot/Services/BotService/BotUpdateHandler.cs:393-444 | a typed vehicle is stored wholesale with ConformingVehicleDoc exactly when it passes validation; an overflowing year reaches the `catch` and changes nothing |
| BotService.PassportLineAccepted | CarInsuranceTelegramBot/Services/BotService/BotUpdateHandler.cs:241-270 | a plausible passport typed in the documented format is what gets stored |
| BotService.VehicleLineAccepted | CarInsuranceTelegramBot/Services/BotService/BotUpdateHandler.cs:400-429 | a plausible vehicle typed in the documented format is what gets stored |
| BotService.PassportPhotoUpdate | CarInsuranceTelegramBot/Services/BotService/BotUpdateHandler.cs:314-337 | a passport photo stores ConfirmingPassport whatever extraction does and replaces the passport only with an extracted one |
| BotService.ConfirmationCallbackUpdate | CarInsuranceTelegramBot/Services/BotService/BotUpdateHandler.cs:559-618 | in the passport and vehicle confirmation states a press stores the table's target; any other press is invalid and changes nothing (passport table at :349-390) |
| BotService.PriceCallbackUpdate | CarInsuranceTelegramBot/Services/BotService/BotUpdateHandler.cs:621-653 | in AwaitingPriceConfirmation `restart` resets, `agreePrice` completes exactly with both records and a delivered document, `declinePrice` changes nothing stored |
| BotService.VehicleDocConfirmedOffersPrice | CarInsuranceTelegramBot/Services/BotService/BotUpdateHandler.cs:597-601 | `confirmVehicleDoc` in ConformingVehicleDoc stores AwaitingPriceConfirmation and sends exactly the price offer with the accept and decline buttons; the press is answered first |
| BotService.PriceDeclinedReply | CarInsuranceTelegramBot/Services/BotService/BotUpdateHandler.cs:636-647 | `declinePrice` keeps the store and sends exactly the declined-offer message with the accept and restart buttons; the press is answered first |
| BotService.CountryCallbackUpdate | CarInsuranceTelegramBot/Services/BotService/BotUpdateHandler.cs:196-208 | in the country step a payload with `_` stores the code and moves to AwaitingVehicleFront; one without is answered with the error and changes nothing |
| BotService.FrontPhotoUpdate | CarInsuranceTelegramBot/Services/BotService/BotUpdateHandler.cs:458-480 | the front page becomes the only pending page; with a back page to come the state is AwaitingVehicleBack, otherwise the page is read and dropped with state ConformingVehicleDoc |
| BotService.BackPhotoUpdate | CarInsuranceTelegramBot/Services/BotService/BotUpdateHandler.cs:482-508 | the back page is read with the pending front page and both are dropped; without a front page only the error reply is sent |
| BotService.CallbackTargets | CarInsuranceTelegramBot/Services/BotService/BotUpdateHandler.cs:621-653 | `restart` is honoured only while the price is on offer, no button completes a session, and only `agreePrice` starts issuance |
| BotService.BotUpdateHandler.constructor | CarInsuranceTelegramBot/Services/BotService/BotUpdateHandler.cs:25-39 | the handler starts with the given repository, no pending pages and no replies |
| BotService.BotUpdateHandler.GetOrCreateSession | CarInsuranceTelegramBot/Services/BotService/BotUpdateHandler.cs:823-828 | returns `SessionFor` of the stored sessions |
| BotService.BotUpdateHandler.SendUnrecognizedMessageResponse | CarInsuranceTelegramBot/Services/BotService/BotUpdateHandler.cs:845-866 | performs `SendUnrecognized` |
| BotService.BotUpdateHandler.HandleStartCommand | CarInsuranceTelegramBot/Services/BotService/BotUpdateHandler.cs:669-697 | performs `Start` on the repository, buffers and replies |
| BotService.BotUpdateHandler.RequestPriceConfirmation | CarInsuranceTelegramBot/Services/BotService/BotUpdateHandler.cs:700-710 | sends the price offer with its keyboard |
| BotService.BotUpdateHandler.HandleManualPassportText | CarInsuranceTelegramBot/Services/BotService/BotUpdateHandler.cs:234-287 | performs `ManualPassportText` |
| BotService.BotUpdateHandler.HandleManualVehicleText | CarInsuranceTelegramBot/Services/BotService/BotUpdateHandler.cs:393-444 | performs `ManualVehicleText` |
| BotService.BotUpdateHandler.HandlePassportPhoto | CarInsuranceTelegramBot/Services/BotService/BotUpdateHandler.cs:290-346 | performs `PassportPhoto` |
| BotService.BotUpdateHandler.ProcessVehicleDocument | CarInsuranceTelegramBot/Services/BotService/BotUpdateHandler.cs:510-556 | performs `DocumentRead` |
| BotService.BotUpdateHandler.HandleVehicleFrontPhoto | CarInsuranceTelegramBot/Services/BotService/BotUpdateHandler.cs:446-480 | performs `VehicleFrontPhoto` |
| BotService.BotUpdateHandler.HandleVehicleBackPhoto | CarInsuranceTelegramBot/Services/BotService/BotUpdateHandler.cs:482-508 | performs `VehicleBackPhoto` |
| BotService.BotUpdateHandler.HandlePassportConfirmationCallbacks | CarInsuranceTelegramBot/Services/BotService/BotUpdateHandler.cs:349-390 | performs `PassportConfirmationCallbacks` |
| BotService.BotUpdateHandler.HandleCountryCallback | CarInsuranceTelegramBot/Services/BotService/BotUpdateHandler.cs:196-208 | performs `CountryCallback` |
| BotService.BotUpdateHandler.HandleVehicleConfirmationCallbacks | CarInsuranceTelegramBot/Services/BotService/BotUpdateHandler.cs:559-618 | performs `VehicleConfirmationCallbacks` |
| BotService.BotUpdateHandler.GenerateAndSendPolicy | CarInsuranceTelegramBot/Services/BotService/BotUpdateHandler.cs:724-779 | performs `PolicyGenerated` |
| BotService.BotUpdateHandler.HandlePriceConfirmationCallbacks | CarInsuranceTelegramBot/Services/BotService/BotUpdateHandler.cs:621-653 | performs `PriceConfirmationCallbacks` |
| BotService.BotUpdateHandler.HandleMessageUpdate | CarInsuranceTelegramBot/Services/BotService/BotUpdateHandler.cs:98-183 | performs `MessageUpdate` |
| BotService.BotUpdateHandler.HandleCallbackQueryUpdate | CarInsuranceTelegramBot/Services/BotService/BotUpdateHandler.cs:186-228 | performs `CallbackQueryUpdate` |
| BotService.BotUpdateHandler.HandleUpdate | CarInsuranceTelegramBot/Services/BotService/BotUpdateHandler.cs:43-95 | performs `Handled`: the new repository, buffers and replies are those of the step function |
| ServicesHandler.ManualPassportText | CarInsuranceTelegramBot/Services/BotUpdateHandler.cs:190-238 | a wrong field count gets the format error, unreadable dates the date error, both changing nothing; five fields with three dates store the passport with ConfirmingPassport |
| ServicesHandler.ManualVehicleText | CarInsuranceTelegramBot/Services/BotUpdateHandler.cs:343-391 | a wrong field count or unreadable year changes nothing; an overflowing year escapes as a fault; otherwise the vehicle is stored wholesale with ConformingVehicleDoc |
| ServicesHandler.PassportPhoto | CarInsuranceTelegramBot/Services/BotUpdateHandler.cs:241-297 | ConfirmingPassport is stored whatever extraction does; only an extracted passport replaces the stored one |
| ServicesHandler.VehicleFrontPhoto | CarInsuranceTelegramBot/Services/BotUpdateHandler.cs:394-452 | ConfirmingVehicleDocFront is stored; a read front page merges its registration number and year into the vehicle |
| ServicesHandler.VehicleBackPhoto | CarInsuranceTelegramBot/Services/BotUpdateHandler.cs:455-514 | ConfirmingVehicleDocBack is stored; a read back page merges its VIN, model and make into the vehicle |
| ServicesHandler.PassportConfirmationCallbacks | CarInsuranceTelegramBot/Services/BotUpdateHandler.cs:300-340 | a payload of the passport table stores its target state; any other is answered as invalid and changes nothing |
| ServicesHandler.VehicleConfirmationCallbacks | CarInsuranceTelegramBot/Services/BotUpdateHandler.cs:517-576 | a payload of the vehicle table stores its target state; others are invalid; confirming the back page without a vehicle is a fault |
| ServicesHandler.PolicyGenerated | CarInsuranceTelegramBot/Services/BotUpdateHandler.cs:676-731 | with both records and a delivered document the session becomes Completed and the document is sent; otherwise the error reply and no change |
| ServicesHandler.PriceConfirmationCallbacks | CarInsuranceTelegramBot/Services/BotUpdateHandler.cs:579-607 | `agreePrice` completes exactly when both records are present and the document was delivered (otherwise GeneratingPolicy), `declinePrice` keeps the offer, every other payload is invalid |
| ServicesHandler.Unrecognized | CarInsuranceTelegramBot/Services/BotUpdateHandler.cs:797-805 | the fixed "not understood" reply and no change |
| ServicesHandler.MessageUpdate | CarInsuranceTelegramBot/Services/BotUpdateHandler.cs:75-153 | changes only the chat's record, keeps every record under its own chat id, and completes no session without sending its policy document |
| ServicesHandler.CallbackQueryUpdate | CarInsuranceTelegramBot/Services/BotUpdateHandler.cs:156-184 | changes only the chat's record, keeps every record under its own chat id, and completes no session without sending its policy document |
| ServicesHandler.Handled | CarInsuranceTelegramBot/Services/BotUpdateHandler.cs:33-72 | a whole update changes only the chat's record, keeps every record under its own chat id, and completes no session without sending its policy document |
| ServicesHandler.StartResets | CarInsuranceTelegramBot/Services/BotUpdateHandler.cs:44-48 | `/start` in any state leaves a fresh AwaitingPassport session and only the greeting, other chats untouched |
| ServicesHandler.CompletedOnlyAfterIssuance | CarInsuranceTelegramBot/Services/BotUpdateHandler.cs:676-731 | a session becomes Completed only in an update that sends its chat the policy document |
| ServicesHandler.CompletedAnswersAlreadyIssued | CarInsuranceTelegramBot/Services/BotUpdateHandler.cs:140-147 | in Completed every message and button press but `/start` is answered "already issued" and changes nothing (buttons at :610-618) |
| ServicesHandler.PriceOfferRepeated | CarInsuranceTelegramBot/Services/BotUpdateHandler.cs:136-138 | while the price is on offer any message is answered by repeating the offer |
| ServicesHandler.HandleMessage | CarInsuranceTelegramBot/Services/BotUpdateHandler.cs:50-55 | a message that is not `/start` is dispatched on its session's state, a fault being answered by the `catch` |
| ServicesHandler.HandleCallback | CarInsuranceTelegramBot/Services/BotUpdateHandler.cs:56-60 | a button press is acknowledged first and then dispatched |
| ServicesHandler.ManualPassportUpdate | CarInsuranceTelegramBot/Services/BotUpdateHandler.cs:190-238 | a typed passport is stored with ConfirmingPassport exactly when its five fields and three dates read; otherwise the store stays |
| ServicesHandler.ManualVehicleUpdate | CarInsuranceTelegramBot/Services/BotUpdateHandler.cs:343-391 | a typed vehicle is stored wholesale with ConformingVehicleDoc exactly when its fields and year read; an overflowing year gets the generic error from the `catch` |
| ServicesHandler.PassportLineAccepted | CarInsuranceTelegramBot/Services/BotUpdateHandler.cs:197-225 | a passport typed in the documented format is what gets stored, without any range check |
| ServicesHandler.VehicleLineAccepted | CarInsuranceTelegramBot/Services/BotUpdateHandler.cs:350-375 | a vehicle typed in the documented format, with any year that fits `int`, is what gets stored |
| ServicesHandler.PassportPhotoUpdate | CarInsuranceTelegramBot/Services/BotUpdateHandler.cs:241-297 | a passport photo stores ConfirmingPassport and replaces the passport only with an extracted one |
| ServicesHandler.FrontPhotoUpdate | CarInsuranceTelegramBot/Services/BotUpdateHandler.cs:394-452 | the front page stores ConfirmingVehicleDocFront and, when read, sets the registration number and year and keeps VIN, make and model |
| ServicesHandler.BackPhotoUpdate | CarInsuranceTelegramBot/Services/BotUpdateHandler.cs:455-514 | the back page stores ConfirmingVehicleDocBack and, when read, sets VIN, model and make and keeps the registration number and year |
| ServicesHandler.ConfirmationCallbackUpdate | CarInsuranceTelegramBot/Services/BotUpdateHandler.cs:517-576 | in the confirmation states a press stores the table's target; any other press only gets the invalid reply (passport table at :300-340) |
| ServicesHandler.PriceCallbackUpdate | CarInsuranceTelegramBot/Services/BotUpdateHandler.cs:579-607 | in AwaitingPriceConfirmation `agreePrice` completes exactly with both records and a delivered document; nothing else changes what is stored |
| ServicesHandler.VehicleDocConfirmedOffersPrice | CarInsuranceTelegramBot/Services/BotUpdateHandler.cs:555-559 | `confirmVehicleDoc` in ConformingVehicleDoc stores AwaitingPriceConfirmation and sends exactly the price offer with the accept and decline buttons; the press is answered first |
| ServicesHandler.PriceDeclinedReply | CarInsuranceTelegramBot/Services/BotUpdateHandler.cs:590-601 | `declinePrice` keeps the store and sends exactly the declined-offer message with the accept and restart buttons; the press is answered first |
| ServicesHandler.CallbackTargets | CarInsuranceTelegramBot/Services/BotUpdateHandler.cs:579-607 | no state of this revision honours `restart`, no button completes a session, and only `agreePrice` starts issuance |
| ServicesHandler.BotUpdateHandler.constructor | CarInsuranceTelegramBot/Services/BotUpdateHandler.cs:19-29 | the handler starts with the given repository and no replies |
| ServicesHandler.BotUpdateHandler.GetOrCreateSession | CarInsuranceTelegramBot/Services/BotUpdateHandler.cs:775-780 | returns the stored session or a new unstored one |
| ServicesHandler.BotUpdateHandler.HandleStartCommand | CarInsuranceTelegramBot/Services/BotUpdateHandler.cs:623-649 | performs `Start` |
| ServicesHandler.BotUpdateHandler.RequestPriceConfirmation | CarInsuranceTelegramBot/Services/BotUpdateHandler.cs:652-662 | sends the price offer with its keyboard |
| ServicesHandler.BotUpdateHandler.HandleManualPassportText | CarInsuranceTelegramBot/Services/BotUpdateHandler.cs:190-238 | performs `ManualPassportText` |
| ServicesHandler.BotUpdateHandler.HandleManualVehicleText | CarInsuranceTelegramBot/Services/BotUpdateHandler.cs:343-391 | performs `ManualVehicleText` |
| ServicesHandler.BotUpdateHandler.HandlePassportPhoto | CarInsuranceTelegramBot/Services/BotUpdateHandler.cs:241-297 | performs `PassportPhoto` |
| ServicesHandler.BotUpdateHandler.HandleVehicleFrontPhoto | CarInsuranceTelegramBot/Services/BotUpdateHandler.cs:394-452 | performs `VehicleFrontPhoto` |
| ServicesHandler.BotUpdateHandler.HandleVehicleBackPhoto | CarInsuranceTelegramBot/Services/BotUpdateHandler.cs:455-514 | performs `VehicleBackPhoto` |
| ServicesHandler.BotUpdateHandler.HandlePassportConfirmationCallbacks | CarInsuranceTelegramBot/Services/BotUpdateHandler.cs:300-340 | performs `PassportConfirmationCallbacks` |
| ServicesHandler.BotUpdateHandler.HandleVehicleConfirmationCallbacks | CarInsuranceTelegramBot/Services/BotUpdateHandler.cs:517-576 | performs `VehicleConfirmationCallbacks` |
| ServicesHandler.BotUpdateHandler.GenerateAndSendPolicy | CarInsuranceTelegramBot/Services/BotUpdateHandler.cs:676-731 | performs `PolicyGenerated` |
| ServicesHandler.BotUpdateHandler.HandlePriceConfirmationCallbacks | CarInsuranceTelegramBot/Services/BotUpdateHandler.cs:579-607 | performs `PriceConfirmationCallbacks` |
| ServicesHandler.BotUpdateHandler.HandleMessageUpdate | CarInsuranceTelegramBot/Services/BotUpdateHandler.cs:75-153 | performs `MessageUpdate` |
| ServicesHandler.BotUpdateHandler.HandleCallbackQueryUpdate | CarInsuranceTelegramBot/Services/BotUpdateHandler.cs:156-184 | performs `CallbackQueryUpdate` |
| ServicesHandler.BotUpdateHandler.HandleUpdate | CarInsuranceTelegramBot/Services/BotUpdateHandler.cs:33-72 | performs `Handled`: the new repository and replies are those of the step function |
| RootHandler.InlineKeyboardPayloads | CarInsuranceTelegramBot/BotUpdateHandler.cs:920-929 | the keyboards this revision builds inline offer exactly the buttons of the shared passport, front, back and vehicle confirmation keyboards |
| RootHandler.ManualPassportText | CarInsuranceTelegramBot/BotUpdateHandler.cs:104-164 | a wrong field count gets the format error, unreadable dates the date error, both changing nothing; five fields with three dates store the passport with ConfirmingPassport |
| RootHandler.ManualVehicleText | CarInsuranceTelegramBot/BotUpdateHandler.cs:166-226 | a wrong field count or unreadable year changes nothing; an overflowing year escapes as a fault; otherwise the vehicle is stored wholesale with ConformingVehicleDoc |
| RootHandler.PassportPhoto | CarInsuranceTelegramBot/BotUpdateHandler.cs:529-600 | ConfirmingPassport is stored whatever extraction does; only an extracted passport replaces the stored one |
| RootHandler.VehicleFrontPhoto | CarInsuranceTelegramBot/BotUpdateHandler.cs:603-676 | ConfirmingVehicleDocFront is stored; a read front side merges its registration number and year into the vehicle |
| RootHandler.VehicleBackPhoto | CarInsuranceTelegramBot/BotUpdateHandler.cs:679-753 | ConfirmingVehicleDocBack is stored; a read back side merges its VIN, model and make into the vehicle |
| RootHandler.PhotoMessage | CarInsuranceTelegramBot/BotUpdateHandler.cs:494-526 | outside the three photo-awaiting states the photo gets "not expecting a photo" and nothing changes; inside them the reader's session is stored |
| RootHandler.PassportConfirmationCallbacks | CarInsuranceTelegramBot/BotUpdateHandler.cs:306-343 | a payload of the passport table stores its target state; any other is answered as invalid and changes nothing |
| RootHandler.VehicleConfirmationCallbacks | CarInsuranceTelegramBot/BotUpdateHandler.cs:346-403 | a payload of the vehicle table stores its target state; others are invalid; confirming the back side without a vehicle is a fault |
| RootHandler.PolicyGenerated | CarInsuranceTelegramBot/BotUpdateHandler.cs:793-851 | with both records and a delivered document the session becomes Completed and the document is sent; otherwise the error reply and no change |
| RootHandler.PriceConfirmationCallbacks | CarInsuranceTelegramBot/BotUpdateHandler.cs:406-441 | `agreePrice` completes exactly when both records are present and the document was delivered (otherwise GeneratingPolicy), `declinePrice` keeps the offer, other payloads are invalid |
| RootHandler.MessageUpdate | CarInsuranceTelegramBot/BotUpdateHandler.cs:57-102 | changes only the chat's record, keeps every record under its own chat id, and completes no session without sending its policy document |
| RootHandler.CallbackData | CarInsuranceTelegramBot/BotUpdateHandler.cs:254-301 | changes only the chat's record, keeps every record under its own chat id, and completes no session without sending its policy document |
| RootHandler.Handled | CarInsuranceTelegramBot/BotUpdateHandler.cs:33-54 | a whole update changes only the chat's record, keeps every record under its own chat id, and completes no session without sending its policy document |
| RootHandler.HandleMessage | CarInsuranceTelegramBot/BotUpdateHandler.cs:57-102 | a message that is not `/start` is dispatched on its session's state; a fault gets the generic error |
| RootHandler.HandleCallback | CarInsuranceTelegramBot/BotUpdateHandler.cs:229-251 | a button press is dispatched and acknowledged afterwards; a fault gets the generic error and no acknowledgement |
| RootHandler.StartResets | CarInsuranceTelegramBot/BotUpdateHandler.cs:63-67 | `/start` in any state leaves a fresh AwaitingPassport session and only the greeting, other chats untouched |
| RootHandler.RestartCallbackResets | CarInsuranceTelegramBot/BotUpdateHandler.cs:264-269 | the `restart` button resets the session in every state and is then acknowledged |
| RootHandler.EmptyCallbackIgnored | CarInsuranceTelegramBot/BotUpdateHandler.cs:256-261 | a press without payload is an unrecognised command in every state and changes nothing stored |
| RootHandler.UnaddressedIgnored | CarInsuranceTelegramBot/BotUpdateHandler.cs:37-48 | an update of another kind, or a press whose message is gone, changes nothing |
| RootHandler.CompletedOnlyAfterIssuance | CarInsuranceTelegramBot/BotUpdateHandler.cs:793-851 | a session becomes Completed only in an update that sends its chat the policy document |
| RootHandler.CompletedAnswersAlreadyIssued | CarInsuranceTelegramBot/BotUpdateHandler.cs:79-85 | in Completed every message but `/start` and every press but `restart` is answered "already issued" and changes nothing (buttons at :444-451) |
| RootHandler.PhotoGate | CarInsuranceTelegramBot/BotUpdateHandler.cs:88-92 | a photo is read only in AwaitingPassport, AwaitingVehicleFront and AwaitingVehicleBack, moving to the matching confirming state; elsewhere it gets "not expecting a photo" and nothing changes |
| RootHandler.MissingTextFault | CarInsuranceTelegramBot/BotUpdateHandler.cs:73-78 | in a manual-entry state a message without text throws and gets only the generic error |
| RootHandler.ManualPassportUpdate | CarInsuranceTelegramBot/BotUpdateHandler.cs:104-164 | a typed passport is stored with ConfirmingPassport exactly when its five fields and three dates read; otherwise the store stays |
| RootHandler.ManualVehicleUpdate | CarInsuranceTelegramBot/BotUpdateHandler.cs:166-226 | a typed vehicle is stored wholesale with ConformingVehicleDoc exactly when its fields and year read; an overflowing year gets the generic error |
| RootHandler.PassportLineAccepted | CarInsuranceTelegramBot/BotUpdateHandler.cs:111-140 | a passport typed in the documented format is what gets stored, without any range check |
| RootHandler.VehicleLineAccepted | CarInsuranceTelegramBot/BotUpdateHandler.cs:173-200 | a vehicle typed as VIN;Make;Model;Year;Registration, with any year that fits `int`, is what gets stored |
| RootHandler.PassportPhotoUpdate | CarInsuranceTelegramBot/BotUpdateHandler.cs:529-600 | a passport photo stores ConfirmingPassport and replaces the passport only with an extracted one |
| RootHandler.FrontPhotoUpdate | CarInsuranceTelegramBot/BotUpdateHandler.cs:603-676 | the front side stores ConfirmingVehicleDocFront and, when read, sets the registration number and year and keeps VIN, make and model |
| RootHandler.BackPhotoUpdate | CarInsuranceTelegramBot/BotUpdateHandler.cs:679-753 | the back side stores ConfirmingVehicleDocBack and, when read, sets VIN, model and make and keeps the registration number and year |
| RootHandler.ConfirmationCallbackUpdate | CarInsuranceTelegramBot/BotUpdateHandler.cs:272-301 | in ConfirmingPassport, and in the vehicle-button states including the photo-awaiting ones, a press stores the table's target; any other press only gets the invalid reply |
| RootHandler.PriceCallbackUpdate | CarInsuranceTelegramBot/BotUpdateHandler.cs:406-441 | in AwaitingPriceConfirmation `agreePrice` completes exactly with both records and a delivered document; `declinePrice` and unknown payloads change nothing stored |
| RootHandler.VehicleDocConfirmedOffersPrice | CarInsuranceTelegramBot/BotUpdateHandler.cs:382-386 | `confirmVehicleDoc` in ConformingVehicleDoc stores AwaitingPriceConfirmation and sends exactly the price offer with the accept and decline buttons; the press is answered after the reply |
| RootHandler.PriceDeclinedReply | CarInsuranceTelegramBot/BotUpdateHandler.cs:417-435 | `declinePrice` keeps the store and sends exactly the "no other prices" message with the accept and start-over buttons; the press is answered after the reply |
| RootHandler.CallbackTargets | CarInsuranceTelegramBot/BotUpdateHandler.cs:272-301 | no button completes a session, only `agreePrice` starts issuance, and the vehicle buttons are honoured exactly in the vehicle-button states |
| RootHandler.BotUpdateHandler.constructor | CarInsuranceTelegramBot/BotUpdateHandler.cs:19-29 | the handler starts with the given repository and no replies |
| RootHandler.BotUpdateHandler.GetOrCreateSession | CarInsuranceTelegramBot/BotUpdateHandler.cs:906-911 | returns the stored session or a new unstored one |
| RootHandler.BotUpdateHandler.HandleStartCommand | CarInsuranceTelegramBot/BotUpdateHandler.cs:466-491 | performs `Start` |
| RootHandler.BotUpdateHandler.RequestPriceConfirmation | CarInsuranceTelegramBot/BotUpdateHandler.cs:756-771 | sends the price offer with its keyboard |
| RootHandler.BotUpdateHandler.HandleManualPassportText | CarInsuranceTelegramBot/BotUpdateHandler.cs:104-164 | performs `ManualPassportText` |
| RootHandler.BotUpdateHandler.HandleManualVehicleText | CarInsuranceTelegramBot/BotUpdateHandler.cs:166-226 | performs `ManualVehicleText` |
| RootHandler.BotUpdateHandler.HandlePassportPhoto | CarInsuranceTelegramBot/BotUpdateHandler.cs:529-600 | performs `PassportPhoto` |
| RootHandler.BotUpdateHandler.HandleVehicleFrontPhoto | CarInsuranceTelegramBot/BotUpdateHandler.cs:603-676 | performs `VehicleFrontPhoto` |
| RootHandler.BotUpdateHandler.HandleVehicleBackPhoto | CarInsuranceTelegramBot/BotUpdateHandler.cs:679-753 | performs `VehicleBackPhoto` |
| RootHandler.BotUpdateHandler.HandlePhotoMessage | CarInsuranceTelegramBot/BotUpdateHandler.cs:494-526 | performs `PhotoMessage` |
| RootHandler.BotUpdateHandler.HandlePassportConfirmationCallbacks | CarInsuranceTelegramBot/BotUpdateHandler.cs:306-343 | performs `PassportConfirmationCallbacks` |
| RootHandler.BotUpdateHandler.HandleVehicleConfirmationCallbacks | CarInsuranceTelegramBot/BotUpdateHandler.cs:346-403 | performs `VehicleConfirmationCallbacks` |
| RootHandler.BotUpdateHandler.RequestVehicleDocConfirmation | CarInsuranceTelegramBot/BotUpdateHandler.cs:773-790 | sends the vehicle summary with its keyboard; without a vehicle it throws and sends nothing |
| RootHandler.BotUpdateHandler.GenerateAndSendPolicy | CarInsuranceTelegramBot/BotUpdateHandler.cs:793-851 | performs `PolicyGenerated` |
| RootHandler.BotUpdateHandler.HandlePriceConfirmationCallbacks | CarInsuranceTelegramBot/BotUpdateHandler.cs:406-441 | performs `PriceConfirmationCallbacks` |
| RootHandler.BotUpdateHandler.HandleCallbackData | CarInsuranceTelegramBot/BotUpdateHandler.cs:254-301 | performs `CallbackData` |
| RootHandler.BotUpdateHandler.HandleMessageUpdate | CarInsuranceTelegramBot/BotUpdateHandler.cs:57-102 | performs `MessageUpdate` |
| RootHandler.BotUpdateHandler.HandleCallbackQueryUpdate | CarInsuranceTelegramBot/BotUpdateHandler.cs:229-251 | performs the press and its acknowledgement |
| RootHandler.BotUpdateHandler.HandleUpdate | CarInsuranceTelegramBot/BotUpdateHandler.cs:33-54 | performs `Handled`: the new repository and replies are those of the step function |
| InsuranseHandler.ConfirmationKeyboard | CarInsuranseTelegramBot/BotUpdateHandler.cs:617-626 | the keyboard offers exactly the two given payloads, confirm then retry |
| InsuranseHandler.PriceKeyboardPayloads | CarInsuranseTelegramBot/BotUpdateHandler.cs:471-486 | the offer keyboard carries the same payloads as the shared price keyboard, and the keyboard sent after a decline (:258-262) those of the shared declined-offer keyboard |
| InsuranseHandler.Start | CarInsuranseTelegramBot/BotUpdateHandler.cs:302-329 | the chat's session becomes a fresh AwaitingPassport one, other chats' records stay, and the greeting is the only reply |
| InsuranseHandler.SessionFor | CarInsuranseTelegramBot/BotUpdateHandler.cs:602-607 | the stored session, or a new unstored one in state None |
| InsuranseHandler.PassportPhoto | CarInsuranseTelegramBot/BotUpdateHandler.cs:363-414 | an exception is a fault that changes nothing; no result gets "could not read" and changes nothing; a read passport is stored with ConfirmingPassport and shown with confirm and retry buttons |
| InsuranseHandler.VehiclePhoto | CarInsuranseTelegramBot/BotUpdateHandler.cs:417-468 | an exception is a fault that changes nothing; no result gets "could not read" and changes nothing; a read vehicle is stored with ConfirmingVehicleDoc and shown with confirm and retry buttons |
| InsuranseHandler.PhotoMessage | CarInsuranseTelegramBot/BotUpdateHandler.cs:332-360 | outside AwaitingPassport and AwaitingVehicleDoc a photo gets "not expecting a photo" and nothing changes |
| InsuranseHandler.PassportConfirmationCallbacks | CarInsuranseTelegramBot/BotUpdateHandler.cs:183-211 | a payload of the passport table stores its target state; any other is answered as invalid and changes nothing |
| InsuranseHandler.VehicleConfirmationCallbacks | CarInsuranseTelegramBot/BotUpdateHandler.cs:214-239 | a payload of the vehicle table stores its target state; any other is answered as invalid and changes nothing |
| InsuranseHandler.PolicyGenerated | CarInsuranseTelegramBot/BotUpdateHandler.cs:489-547 | with both records and a delivered document the session becomes Completed and the document is sent; missing data gets the policy error and a failed send the generic error, neither changing the record |
| InsuranseHandler.PriceConfirmationCallbacks | CarInsuranseTelegramBot/BotUpdateHandler.cs:242-277 | `agreePrice` completes the session exactly when both records are present and the document was delivered (otherwise GeneratingPolicy), `declinePrice` offers the accept and start-over buttons and keeps the state, any other payload is invalid |
| InsuranseHandler.MessageUpdate | CarInsuranseTelegramBot/BotUpdateHandler.cs:63-107 | changes only the chat's record, keeps every record under its own chat id, and completes no session without sending its policy document |
| InsuranseHandler.CallbackData | CarInsuranseTelegramBot/BotUpdateHandler.cs:135-178 | changes only the chat's record, keeps every record under its own chat id, and completes no session without sending its policy document |
| InsuranseHandler.Handled | CarInsuranseTelegramBot/BotUpdateHandler.cs:32-59 | a whole update changes only the chat's record, keeps every record under its own chat id, and completes no session without sending its policy document |
| InsuranseHandler.HandleMessage | CarInsuranseTelegramBot/BotUpdateHandler.cs:63-107 | a message that is not `/start` is handled with the stored session or a fresh unstored one |
| InsuranseHandler.HandleCallback | CarInsuranseTelegramBot/BotUpdateHandler.cs:110-132 | a button press is dispatched and acknowledged afterwards |
| InsuranseHandler.StartResets | CarInsuranseTelegramBot/BotUpdateHandler.cs:75-79 | `/start` in any state leaves a fresh AwaitingPassport session and only the greeting, other chats untouched |
| InsuranseHandler.RestartCallbackResets | CarInsuranseTelegramBot/BotUpdateHandler.cs:144-149 | the `restart` button resets the session in every state and is then acknowledged |
| InsuranseHandler.EmptyCallbackIgnored | CarInsuranseTelegramBot/BotUpdateHandler.cs:137-142 | a press without payload is an unrecognised command in every state and changes nothing stored |
| InsuranseHandler.UnaddressedIgnored | CarInsuranseTelegramBot/BotUpdateHandler.cs:42-53 | an update of another kind, or a press whose message is gone, changes nothing |
| InsuranseHandler.CompletedOnlyAfterIssuance | CarInsuranseTelegramBot/BotUpdateHandler.cs:489-547 | a session becomes Completed only in an update that sends its chat the policy document |
| InsuranseHandler.NothingStoredWithoutStart | CarInsuranseTelegramBot/BotUpdateHandler.cs:602-607 | a chat without a record gets none from any update but `/start` or `restart`: the session handed out for it is never stored |
| InsuranseHandler.CompletedAnswersAlreadyIssued | CarInsuranseTelegramBot/BotUpdateHandler.cs:83-91 | in Completed every message but `/start` and every press but `restart` is answered "already issued" and changes nothing (buttons at :280-287) |
| InsuranseHandler.TextNotUnderstood | CarInsuranseTelegramBot/BotUpdateHandler.cs:93-100 | a message without photo outside Completed gets only the "not understood" reply |
| InsuranseHandler.PhotoGate | CarInsuranseTelegramBot/BotUpdateHandler.cs:332-360 | a photo outside AwaitingPassport, AwaitingVehicleDoc and Completed gets only "not expecting a photo" |
| InsuranseHandler.PassportPhotoUpdate | CarInsuranseTelegramBot/BotUpdateHandler.cs:363-414 | in AwaitingPassport a read passport is stored with ConfirmingPassport and shown with its buttons; no result gets "could not read", an exception the generic error, neither changing the record |
| InsuranseHandler.VehiclePhotoUpdate | CarInsuranseTelegramBot/BotUpdateHandler.cs:417-468 | in AwaitingVehicleDoc a read vehicle is stored with ConfirmingVehicleDoc and shown with its buttons; no result gets "could not read", an exception the generic error, neither changing the record |
| InsuranseHandler.ConfirmationCallbackUpdate | CarInsuranseTelegramBot/BotUpdateHandler.cs:151-159 | in ConfirmingPassport and ConfirmingVehicleDoc a press stores the table's target; any other press only gets the invalid reply |
| InsuranseHandler.PriceCallbackUpdate | CarInsuranseTelegramBot/BotUpdateHandler.cs:242-277 | in AwaitingPriceConfirmation `agreePrice` completes exactly with both records and a delivered document; `declinePrice` and unknown payloads change nothing stored |
| InsuranseHandler.VehicleDocConfirmedOffersPrice | CarInsuranseTelegramBot/BotUpdateHandler.cs:218-223 | `confirmVehicle` in ConfirmingVehicleDoc stores AwaitingPriceConfirmation and sends exactly the price offer with the accept and decline buttons; the press is answered after the reply |
| InsuranseHandler.PriceDeclinedReply | CarInsuranseTelegramBot/BotUpdateHandler.cs:253-271 | `declinePrice` keeps the store and sends exactly the "no other prices" message with the accept and start-over buttons; the press is answered after the reply |
| InsuranseHandler.CallbackTargets | CarInsuranseTelegramBot/BotUpdateHandler.cs:151-177 | no button completes a session, only `agreePrice` starts issuance, and buttons move a session only in the two confirming states and the price offer |
| InsuranseHandler.BotUpdateHandler.constructor | CarInsuranseTelegramBot/BotUpdateHandler.cs:18-28 | the handler starts with the given repository and no replies |
| InsuranseHandler.BotUpdateHandler.GetOrCreateSession | CarInsuranseTelegramBot/BotUpdateHandler.cs:602-607 | returns `SessionFor` of the stored sessions |
| InsuranseHandler.BotUpdateHandler.HandleStartCommand | CarInsuranseTelegramBot/BotUpdateHandler.cs:302-329 | performs `Start` |
| InsuranseHandler.BotUpdateHandler.HandlePassportPhoto | CarInsuranseTelegramBot/BotUpdateHandler.cs:363-414 | performs `PassportPhoto`, returning the fault |
| InsuranseHandler.BotUpdateHandler.HandleVehiclePhoto | CarInsuranseTelegramBot/BotUpdateHandler.cs:417-468 | performs `VehiclePhoto`, returning the fault |
| InsuranseHandler.BotUpdateHandler.HandlePhotoMessage | CarInsuranseTelegramBot/BotUpdateHandler.cs:332-360 | performs `PhotoMessage` |
| InsuranseHandler.BotUpdateHandler.HandlePassportConfirmationCallbacks | CarInsuranseTelegramBot/BotUpdateHandler.cs:183-211 | performs `PassportConfirmationCallbacks` |
| InsuranseHandler.BotUpdateHandler.RequestPriceConfirmation | CarInsuranseTelegramBot/BotUpdateHandler.cs:471-486 | sends the price offer with the accept and decline buttons |
| InsuranseHandler.BotUpdateHandler.HandleVehicleConfirmationCallbacks | CarInsuranseTelegramBot/BotUpdateHandler.cs:214-239 | performs `VehicleConfirmationCallbacks` |
| InsuranseHandler.BotUpdateHandler.GenerateAndSendPolicy | CarInsuranseTelegramBot/BotUpdateHandler.cs:489-547 | performs `PolicyGenerated` |
| InsuranseHandler.BotUpdateHandler.HandlePriceConfirmationCallbacks | CarInsuranseTelegramBot/BotUpdateHandler.cs:242-277 | performs `PriceConfirmationCallbacks` |
| InsuranseHandler.BotUpdateHandler.HandleCallbackData | CarInsuranseTelegramBot/BotUpdateHandler.cs:135-178 | performs `CallbackData` |
| InsuranseHandler.BotUpdateHandler.HandleMessageUpdate | CarInsuranseTelegramBot/BotUpdateHandler.cs:63-107 | performs `Handled` for a message |
| InsuranseHandler.BotUpdateHandler.HandleCallbackQueryUpdate | CarInsuranseTelegramBot/BotUpdateHandler.cs:110-132 | performs `Handled` for a button press |
| InsuranseHandler.BotUpdateHandler.HandleUpdate | CarInsuranseTelegramBot/BotUpdateHandler.cs:32-59 | performs `Handled`: the new repository and replies are those of the step function |

## Left out

- Telegram I/O, photo downloads and the cancellation tokens: an update is a value, replies are appended to `outbox`, a downloaded photo is its bytes.
- The OCR (Mindee) and Gemini calls are oracles in `Env`; in the three newer revisions an OCR call that throws is modelled as no result, as their handlers catch it.
- In the original revision the vehicle reader throws before any request (CarInsuranseTelegramBot/Services/MindeeService.cs:84-87), so there every vehicle photo ends in the error reply and ConfirmingVehicleDoc, the price offer and the policy are never reached. The `env.extractVehicle` oracle also admits a successful read; `InsuranseHandler.VehiclePhotoUpdate`'s `Failed` case is what that revision actually does.
- PDF generation, file names, GUIDs and the clock: the policy is a `SendDocument` reply whose delivery is `Env.policySent`; the current year is `Env.currentYear`.
- Logging, `HandleErrorAsync` and the generic error handler of the hosting service: a fault that reaches the top of a handler without a `catch` leaves the world as it was.
- Entity Framework change tracking and object aliasing: sessions are values, so a handler's copy of a session and the stored record are separate, and the repository's merge is applied explicitly.
- Repository.UserSessionRepositoryInMemory.Add: a duplicate chat id, which throws in the source, is modelled as a refused add that changes nothing; every caller deletes first, so the path is not reached.
- InsuranseRepository.UserSessionRepositoryInMemory.Add: the same duplicate-key simplification.
- Concurrency: updates are handled one after another; the process-wide page buffer of the newest revision is a map in the world, not a concurrent dictionary.
- Markdown rendering, culture-dependent formatting and the `ToString` text of passport and vehicle summaries: replies that show data are `Body` values carrying the data.
- Chat ids are Telegram's `Int64` as unbounded integers, with 0 meaning no chat as in the source.
- Keyboards the newest revision names but `BotKeyboards` does not define are `Markup.Undefined` with their name.
- In the root revision the vehicle prompt asks for `VIN;Model;Make;Year;Registration number`, but the parser reads the second field as Make and the third as Model; the model follows the parser.
- The wording of replies of the `Services/` revision is not modelled; its replies are named by their message-table entries.
