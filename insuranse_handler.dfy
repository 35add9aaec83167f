/** The update handler of the original `CarInsuranseTelegramBot` project:
    the passport and then the vehicle registration document each read from
    one photo, confirmed or retried by a button, a price offer and the
    policy. There is no manual entry. Its sessions live in the
    whole-record repository of that project. */
module InsuranseHandler {
  import opened Wrappers
  import opened InsuranseModels
  import InsuranseRepository
  import BotKeyboards
  import Telegram
  import Callbacks

  type Store = InsuranseRepository.Store

  /** What a reading service call gives: the data, `null`, or an exception. */
  datatype Extraction<T> = Extracted(value: T) | NoResult | Failed

  /** What the handler learns from outside: the two OCR calls and whether
      the policy document reaches the chat. */
  datatype Env = Env(
    extractPassport: Telegram.Bytes -> Extraction<PassportData>,
    extractVehicle: Telegram.Bytes -> Extraction<VehicleData>,
    policySent: bool)

  /** The fixed replies, each named after what it says; `Wording` gives its
      text. */
  datatype Phrase =
    | Greeting | ErrorOccurred | UnrecognizedMessage | UnrecognizedCommand
    | AlreadyIssued | NotExpectingPhoto | NoLongerAvailable | InvalidAction
    | PassportConfirmed | RetryPassportPrompt | RetryVehiclePrompt
    | PassportNotRead | VehicleNotRead | PriceOffer | NoOtherPrices
    | PolicyError | PolicyIssued

  function Wording(p: Phrase): string {
    match p
    case Greeting => "Hi! I'm a bot that helps you purchase car insurance. \nTo get started, please send a photo of your passport."
    case ErrorOccurred => "Sorry, an error occurred. Please try again or use /start to begin a new session."
    case UnrecognizedMessage => "I don't understand this message. Please use /start to begin or follow the instructions."
    case UnrecognizedCommand => "Unrecognized command. Use /start to begin."
    case AlreadyIssued => "Your insurance policy has already been issued. Use /start to purchase a new policy."
    case NotExpectingPhoto => "I'm not currently expecting a photo. Use /start to begin a new session."
    case NoLongerAvailable => "This action is no longer available. Use /start to begin a new session."
    case InvalidAction => "This action is not valid in the current context. Please follow the provided options."
    case PassportConfirmed => "Passport confirmed. Please send a photo of your vehicle registration document."
    case RetryPassportPrompt => "Let's try again. Please send a clear photo of your passport."
    case RetryVehiclePrompt => "Let's try again. Please send a clear photo of your vehicle registration document."
    case PassportNotRead => "I couldn't extract information from this passport. Please try again with a clearer image."
    case VehicleNotRead => "I couldn't extract information from this vehicle document. Please try again with a clearer image."
    case PriceOffer => "Your vehicle insurance price is 100 USD. Do you accept this offer?"
    case NoOtherPrices => "Unfortunately, we don't have different pricing options available at this time."
    case PolicyError => "Sorry, there was an error generating your policy. Please start over with /start"
    case PolicyIssued => "Thank you for purchasing insurance! Your policy has been issued. Use /start if you'd like to purchase another policy."
  }

  datatype Body =
    | Plain(phrase: Phrase)
    | PassportExtracted(passport: PassportData)
    | VehicleExtracted(vehicle: VehicleData)

  /** The button labels are kept as this project's source has them: emoji
      whose UTF-8 bytes were decoded as Mac Roman. */
  const ConfirmLabel := "\U{201A}\U{FA}\U{D6} Confirm"
  const TryAgainLabel := "\U{F8FF}\U{FC}\U{EE}\U{D1} Try again"

  /** `CreateConfirmationKeyboard(confirm, retry)`. */
  function ConfirmationKeyboard(confirm: string, retry: string): (k: BotKeyboards.Markup)
    ensures BotKeyboards.Payloads(k) == [confirm, retry]
  {
    var row := [BotKeyboards.WithCallbackData(ConfirmLabel, confirm),
                BotKeyboards.WithCallbackData(TryAgainLabel, retry)];
    assert BotKeyboards.RowPayloads(row) == [confirm, retry];
    assert [row][1..] == [];
    assert BotKeyboards.RowsPayloads([row]) == BotKeyboards.RowPayloads(row) + BotKeyboards.RowsPayloads([]);
    BotKeyboards.Inline([row])
  }

  const PriceKeyboard := BotKeyboards.Inline([
    [BotKeyboards.WithCallbackData("\U{201A}\U{FA}\U{D6} Accept", "agreePrice"),
     BotKeyboards.WithCallbackData("\U{201A}\U{F9}\U{E5} Decline", "declinePrice")]])

  const DeclinedKeyboard := BotKeyboards.Inline([
    [BotKeyboards.WithCallbackData("\U{201A}\U{FA}\U{D6} Accept", "agreePrice"),
     BotKeyboards.WithCallbackData("\U{F8FF}\U{FC}\U{EE}\U{D1} Start over", "restart")]])

  /** The price keyboards offer the same buttons as the later revisions'. */
  lemma PriceKeyboardPayloads()
    ensures BotKeyboards.Payloads(PriceKeyboard) == BotKeyboards.Payloads(BotKeyboards.PriceConfirmationKeyboard)
    ensures BotKeyboards.Payloads(DeclinedKeyboard) == BotKeyboards.Payloads(BotKeyboards.DeclinedPriceOfferKeyboard)
  {
    BotKeyboards.PricePayloads();
  }

  /** The store and the replies sent so far. This revision keeps its own
      session record (no country) in its own repository, so the world, the
      store queries and the Step invariant are declared here rather than
      taken from `Conversation`, which is built on the newer record. */
  datatype World = World(store: Store, outbox: seq<Telegram.Reply<Body>>)

  /** Every record is stored under its own chat id. */
  ghost predicate KeysMatch(m: Store) {
    forall k :: k in m ==> m[k].chatId == k
  }

  function StateOf(m: Store, chatId: int): Option<ConversationState> {
    if chatId in m then Some(m[chatId].state) else Option.None
  }

  /** What handling an update may do to the world: append replies, touch the
      record of the given chat only, keep every record under its own chat
      id, and complete a session only while sending that chat its policy
      document. */
  ghost predicate Step(w: World, w': World, chatId: int) {
    && |w.outbox| <= |w'.outbox| && w'.outbox[..|w.outbox|] == w.outbox
    && (forall k :: k != chatId ==> InsuranseRepository.Lookup(w'.store, k) == InsuranseRepository.Lookup(w.store, k))
    && (KeysMatch(w.store) ==> KeysMatch(w'.store))
    && Completions(w'.store) - Completions(w.store) <= Telegram.DocumentChats(w'.outbox[|w.outbox|..])
  }

  /** The chats whose stored session is Completed. */
  ghost function Completions(store: Store): set<int> {
    set k | k in store && store[k].state == Completed
  }

  function Sent(w: World, chatId: int, body: Body, markup: BotKeyboards.Markup): World {
    w.(outbox := w.outbox + [Telegram.Send(chatId, body, markup)])
  }

  function Say(w: World, chatId: int, p: Phrase): World {
    Sent(w, chatId, Plain(p), BotKeyboards.NoMarkup)
  }

  lemma StepTrans(w1: World, w2: World, w3: World, chatId: int)
    requires Step(w1, w2, chatId) && Step(w2, w3, chatId)
    ensures Step(w1, w3, chatId)
  {
    assert w3.outbox[..|w1.outbox|] == w3.outbox[..|w2.outbox|][..|w1.outbox|];
    assert w3.outbox[|w1.outbox|..] == w2.outbox[|w1.outbox|..] + w3.outbox[|w2.outbox|..];
    Telegram.DocumentChatsConcat(w2.outbox[|w1.outbox|..], w3.outbox[|w2.outbox|..]);
  }

  lemma SentStep(w: World, chatId: int, body: Body, markup: BotKeyboards.Markup)
    ensures Step(w, Sent(w, chatId, body, markup), chatId)
  {
    assert Sent(w, chatId, body, markup).outbox[|w.outbox|..] == [Telegram.Send(chatId, body, markup)];
  }

  /** `UpdateAsync(s)` with a state other than Completed. */
  lemma StoredStep(w: World, s: UserSession)
    requires s.state != Completed
    ensures Step(w, w.(store := InsuranseRepository.Updated(w.store, s)), s.chatId)
  {
    assert w.(store := InsuranseRepository.Updated(w.store, s)).outbox[|w.outbox|..] == [];
  }

  /** `HandleStartCommandAsync`. */
  function Start(w: World, chatId: int): (w': World)
    ensures w'.store == w.store[chatId := NewSession(chatId, AwaitingPassport)]
    ensures w'.outbox == w.outbox + [Telegram.Send(chatId, Plain(Greeting), BotKeyboards.NoMarkup)]
    ensures KeysMatch(w.store) ==> Step(w, w', chatId)
  {
    var deleted := w.(store := w.store - {chatId});
    var added := deleted.(store := deleted.store[chatId := NewSession(chatId, AwaitingPassport)]);
    var w' := Say(added, chatId, Greeting);
    assert w'.outbox[|w.outbox|..] == [Telegram.Send(chatId, Plain(Greeting), BotKeyboards.NoMarkup)];
    w'
  }

  /** `GetOrCreateSessionAsync`: the stored session, or a new one in state
      `None` that is not stored. */
  function SessionFor(m: Store, chatId: int): (s: UserSession)
    ensures KeysMatch(m) ==> s.chatId == chatId
    ensures chatId !in m ==> s == NewSession(chatId, ConversationState.None)
    ensures chatId in m ==> s == m[chatId]
  {
    if chatId in m then m[chatId] else NewSession(chatId, ConversationState.None)
  }

  // ---------------------------------------------------------------------
  // Photos

  /** `HandlePassportPhotoAsync`: nothing is stored unless a passport is
      read; a reading service exception escapes to the caller. */
  function PassportPhoto(env: Env, w: World, chatId: int, photo: Telegram.Bytes, s: UserSession): (r: (World, bool))
    ensures env.extractPassport(photo).Failed? <==> r.1
    ensures env.extractPassport(photo).Failed? ==> r.0 == w
    ensures env.extractPassport(photo).NoResult? ==> r.0 == Say(w, chatId, PassportNotRead)
    ensures env.extractPassport(photo).Extracted? ==>
      && r.0.store == InsuranseRepository.Updated(w.store, s.(passportData := Some(env.extractPassport(photo).value), state := ConfirmingPassport))
      && r.0.outbox == w.outbox + [Telegram.Send(chatId, PassportExtracted(env.extractPassport(photo).value), ConfirmationKeyboard("confirmPassport", "retryPassport"))]
    ensures s.chatId == chatId ==> Step(w, r.0, chatId)
  {
    match env.extractPassport(photo)
    case Failed => (w, true)
    case NoResult => (Say(w, chatId, PassportNotRead), false)
    case Extracted(p) =>
      var s1 := s.(passportData := Some(p), state := ConfirmingPassport);
      var w1 := w.(store := InsuranseRepository.Updated(w.store, s1));
      (Sent(w1, chatId, PassportExtracted(p), ConfirmationKeyboard("confirmPassport", "retryPassport")), false)
  }

  /** `HandleVehiclePhotoAsync`: the same for the vehicle document, whose
      record replaces the stored one wholesale. */
  function VehiclePhoto(env: Env, w: World, chatId: int, photo: Telegram.Bytes, s: UserSession): (r: (World, bool))
    ensures env.extractVehicle(photo).Failed? <==> r.1
    ensures env.extractVehicle(photo).Failed? ==> r.0 == w
    ensures env.extractVehicle(photo).NoResult? ==> r.0 == Say(w, chatId, VehicleNotRead)
    ensures env.extractVehicle(photo).Extracted? ==>
      && r.0.store == InsuranseRepository.Updated(w.store, s.(vehicleData := Some(env.extractVehicle(photo).value), state := ConfirmingVehicleDoc))
      && r.0.outbox == w.outbox + [Telegram.Send(chatId, VehicleExtracted(env.extractVehicle(photo).value), ConfirmationKeyboard("confirmVehicle", "retryVehicle"))]
    ensures s.chatId == chatId ==> Step(w, r.0, chatId)
  {
    match env.extractVehicle(photo)
    case Failed => (w, true)
    case NoResult => (Say(w, chatId, VehicleNotRead), false)
    case Extracted(v) =>
      var s1 := s.(vehicleData := Some(v), state := ConfirmingVehicleDoc);
      var w1 := w.(store := InsuranseRepository.Updated(w.store, s1));
      (Sent(w1, chatId, VehicleExtracted(v), ConfirmationKeyboard("confirmVehicle", "retryVehicle")), false)
  }

  /** `HandlePhotoMessageAsync`: the photo goes to the reader the state
      expects, is refused in any other state, and an exception while reading
      is answered with the error reply. */
  function PhotoMessage(env: Env, w: World, chatId: int, photo: Telegram.Bytes, s: UserSession): (w': World)
    ensures s.state != AwaitingPassport && s.state != AwaitingVehicleDoc ==> w' == Say(w, chatId, NotExpectingPhoto)
    ensures s.chatId == chatId ==> Step(w, w', chatId)
  {
    var r :=
      if s.state == AwaitingPassport then PassportPhoto(env, w, chatId, photo, s)
      else if s.state == AwaitingVehicleDoc then VehiclePhoto(env, w, chatId, photo, s)
      else (Say(w, chatId, NotExpectingPhoto), false);
    var w' := if r.1 then Say(r.0, chatId, ErrorOccurred) else r.0;
    assert s.chatId == chatId ==> Step(w, w', chatId) by {
      if s.chatId == chatId && r.1 {
        SentStep(r.0, chatId, Plain(ErrorOccurred), BotKeyboards.NoMarkup);
        StepTrans(w, r.0, w', chatId);
      }
    }
    w'
  }

  // ---------------------------------------------------------------------
  // Button presses

  function PassportTable(a: Callbacks.Action): Option<ConversationState> {
    match a
    case ConfirmPassport => Some(AwaitingVehicleDoc)
    case RetryPassport => Some(AwaitingPassport)
    case _ => Option.None
  }

  function VehicleTable(a: Callbacks.Action): Option<ConversationState> {
    match a
    case ConfirmVehicle => Some(AwaitingPriceConfirmation)
    case RetryVehicle => Some(AwaitingVehicleDoc)
    case _ => Option.None
  }

  function PriceTable(a: Callbacks.Action): Option<ConversationState> {
    match a
    case AgreePrice => Some(GeneratingPolicy)
    case DeclinePrice => Some(AwaitingPriceConfirmation)
    case _ => Option.None
  }

  /** The state a button press other than `restart` moves a session to. */
  function CallbackTarget(state: ConversationState, a: Callbacks.Action): Option<ConversationState> {
    match state
    case ConfirmingPassport => PassportTable(a)
    case ConfirmingVehicleDoc => VehicleTable(a)
    case AwaitingPriceConfirmation => PriceTable(a)
    case _ => Option.None
  }

  /** `HandlePassportConfirmationCallbacks`. */
  function PassportConfirmationCallbacks(w: World, a: Callbacks.Action, chatId: int, s: UserSession): (w': World)
    ensures var t := PassportTable(a);
      && (t.Some? ==> w'.store == InsuranseRepository.Updated(w.store, s.(state := t.value)))
      && (t.None? ==> w' == Say(w, chatId, InvalidAction))
    ensures s.chatId == chatId ==> Step(w, w', chatId)
  {
    match a
    case ConfirmPassport => Say(w.(store := InsuranseRepository.Updated(w.store, s.(state := AwaitingVehicleDoc))), chatId, PassportConfirmed)
    case RetryPassport => Say(w.(store := InsuranseRepository.Updated(w.store, s.(state := AwaitingPassport))), chatId, RetryPassportPrompt)
    case _ => Say(w, chatId, InvalidAction)
  }

  /** `HandleVehicleConfirmationCallbacks`. */
  function VehicleConfirmationCallbacks(w: World, a: Callbacks.Action, chatId: int, s: UserSession): (w': World)
    ensures var t := VehicleTable(a);
      && (t.Some? ==> w'.store == InsuranseRepository.Updated(w.store, s.(state := t.value)))
      && (t.None? ==> w' == Say(w, chatId, InvalidAction))
    ensures s.chatId == chatId ==> Step(w, w', chatId)
  {
    match a
    case ConfirmVehicle =>
      Sent(w.(store := InsuranseRepository.Updated(w.store, s.(state := AwaitingPriceConfirmation))), chatId, Plain(PriceOffer), PriceKeyboard)
    case RetryVehicle => Say(w.(store := InsuranseRepository.Updated(w.store, s.(state := AwaitingVehicleDoc))), chatId, RetryVehiclePrompt)
    case _ => Say(w, chatId, InvalidAction)
  }

  predicate Complete(s: UserSession) {
    s.passportData.Some? && s.vehicleData.Some?
  }

  /** `GenerateAndSendPolicyAsync`: with both records and a delivered
      document the session is completed; otherwise it stays where it was. */
  function PolicyGenerated(env: Env, w: World, chatId: int, s: UserSession): (w': World)
    ensures Complete(s) && env.policySent ==>
      && w'.store == InsuranseRepository.Updated(w.store, s.(state := Completed))
      && |w.outbox| <= |w'.outbox| && Telegram.SendDocument(chatId) in w'.outbox[|w.outbox|..]
    ensures !Complete(s) ==> w' == Say(w, chatId, PolicyError)
    ensures Complete(s) && !env.policySent ==> w' == Say(w, chatId, ErrorOccurred)
    ensures s.chatId == chatId ==> Step(w, w', chatId)
  {
    if !Complete(s) then Say(w, chatId, PolicyError)
    else if !env.policySent then Say(w, chatId, ErrorOccurred)
    else
      var w1 := w.(outbox := w.outbox + [Telegram.SendDocument(chatId)]);
      var w2 := w1.(store := InsuranseRepository.Updated(w1.store, s.(state := Completed)));
      var w3 := Say(w2, chatId, PolicyIssued);
      assert w3.outbox[|w.outbox|..] == [Telegram.SendDocument(chatId), Telegram.Send(chatId, Plain(PolicyIssued), BotKeyboards.NoMarkup)];
      w3
  }

  /** `HandlePriceConfirmationCallbacks`. */
  function PriceConfirmationCallbacks(env: Env, w: World, a: Callbacks.Action, chatId: int, s: UserSession): (w': World)
    ensures a == Callbacks.AgreePrice ==>
      w'.store == InsuranseRepository.Updated(w.store, s.(state := if Complete(s) && env.policySent then Completed else GeneratingPolicy))
    ensures a == Callbacks.DeclinePrice ==>
      w' == Sent(w.(store := InsuranseRepository.Updated(w.store, s.(state := AwaitingPriceConfirmation))), chatId, Plain(NoOtherPrices), DeclinedKeyboard)
    ensures PriceTable(a).None? ==> w' == Say(w, chatId, InvalidAction)
    ensures s.chatId == chatId ==> Step(w, w', chatId)
  {
    match a
    case AgreePrice =>
      var s1 := s.(state := GeneratingPolicy);
      var w1 := w.(store := InsuranseRepository.Updated(w.store, s1));
      var w' := PolicyGenerated(env, w1, chatId, s1);
      assert s.chatId == chatId ==> Step(w, w', chatId) by {
        if s.chatId == chatId {
          StoredStep(w, s1);
          StepTrans(w, w1, w', chatId);
        }
      }
      w'
    case DeclinePrice =>
      Sent(w.(store := InsuranseRepository.Updated(w.store, s.(state := AwaitingPriceConfirmation))), chatId, Plain(NoOtherPrices), DeclinedKeyboard)
    case _ => Say(w, chatId, InvalidAction)
  }

  // ---------------------------------------------------------------------
  // Dispatch

  /** `HandleMessageUpdateAsync` after the `/start` check. */
  function MessageUpdate(env: Env, w: World, m: Telegram.Message, s: UserSession): (w': World)
    ensures s.chatId == m.chatId ==> Step(w, w', m.chatId)
  {
    if s.state == Completed then Say(w, m.chatId, AlreadyIssued)
    else if Telegram.HasPhoto(m) then PhotoMessage(env, w, m.chatId, m.photo.value, s)
    else Say(w, m.chatId, UnrecognizedMessage)
  }

  /** `HandleCallbackDataAsync`: an empty payload is an unrecognised
      command, `restart` starts over in any state, and otherwise the press
      is dispatched on the session's state. */
  function CallbackData(env: Env, w: World, data: Option<string>, chatId: int, s: UserSession): (w': World)
    ensures KeysMatch(w.store) && s.chatId == chatId ==> Step(w, w', chatId)
  {
    var a := Callbacks.Decode(data);
    if Telegram.IsNullOrEmpty(data) then Say(w, chatId, UnrecognizedCommand)
    else if a == Callbacks.Restart then Start(w, chatId)
    else match s.state
      case ConfirmingPassport => PassportConfirmationCallbacks(w, a, chatId, s)
      case ConfirmingVehicleDoc => VehicleConfirmationCallbacks(w, a, chatId, s)
      case AwaitingPriceConfirmation => PriceConfirmationCallbacks(env, w, a, chatId, s)
      case Completed => Say(w, chatId, AlreadyIssued)
      case _ => Say(w, chatId, NoLongerAvailable)
  }

  /** `HandleUpdateAsync`: a message is checked for `/start` and otherwise
      dispatched; a button press on a message of a chat is handled and then
      acknowledged; other updates are ignored. */
  function Handled(env: Env, w: World, u: Telegram.Update): (w': World)
    ensures KeysMatch(w.store) ==> Step(w, w', Telegram.ChatIdOf(u))
  {
    match u
    case OtherUpdate => w
    case MessageUpdate(m) =>
      if Telegram.IsStartCommand(m.text) then Start(w, m.chatId)
      else MessageUpdate(env, w, m, SessionFor(w.store, m.chatId))
    case CallbackQueryUpdate(q) =>
      if q.chat.None? then w
      else
        var c := q.chat.value;
        var w1 := CallbackData(env, w, q.data, c, SessionFor(w.store, c));
        var w' := w1.(outbox := w1.outbox + [Telegram.AnswerCallbackQuery]);
        assert KeysMatch(w.store) ==> Step(w, w', c) by {
          if KeysMatch(w.store) {
            assert Step(w1, w', c) by {
              assert w'.outbox[|w1.outbox|..] == [Telegram.AnswerCallbackQuery];
            }
            StepTrans(w, w1, w', c);
          }
        }
        w'
  }

  // ---------------------------------------------------------------------
  // Properties of whole updates

  /** How `HandleUpdateAsync` treats a message that is not `/start`. */
  lemma HandleMessage(env: Env, w: World, m: Telegram.Message)
    requires !Telegram.IsStartCommand(m.text)
    ensures Handled(env, w, Telegram.MessageUpdate(m)) == MessageUpdate(env, w, m, SessionFor(w.store, m.chatId))
  {
  }

  /** How `HandleUpdateAsync` treats a button press on a message of a chat. */
  lemma HandleCallback(env: Env, w: World, q: Telegram.CallbackQuery)
    requires q.chat.Some?
    ensures var c := q.chat.value;
      var w' := CallbackData(env, w, q.data, c, SessionFor(w.store, c));
      Handled(env, w, Telegram.CallbackQueryUpdate(q)) == w'.(outbox := w'.outbox + [Telegram.AnswerCallbackQuery])
  {
  }

  /** `/start`, in any state, leaves a fresh session awaiting the passport
      and exactly the greeting; other chats are untouched. */
  lemma StartResets(env: Env, w: World, m: Telegram.Message)
    requires Telegram.IsStartCommand(m.text)
    ensures var c, w' := m.chatId, Handled(env, w, Telegram.MessageUpdate(m));
      && InsuranseRepository.Lookup(w'.store, c) == Some(NewSession(c, AwaitingPassport))
      && w'.outbox == w.outbox + [Telegram.Send(c, Plain(Greeting), BotKeyboards.NoMarkup)]
      && (forall k :: k != c ==> InsuranseRepository.Lookup(w'.store, k) == InsuranseRepository.Lookup(w.store, k))
  {
  }

  /** The `restart` button starts over in every state, and is then
      acknowledged. */
  lemma RestartCallbackResets(env: Env, w: World, q: Telegram.CallbackQuery)
    requires q.chat.Some? && Callbacks.Decode(q.data) == Callbacks.Restart
    ensures var c, w' := q.chat.value, Handled(env, w, Telegram.CallbackQueryUpdate(q));
      && w'.store == w.store[c := NewSession(c, AwaitingPassport)]
      && w'.outbox == w.outbox + [Telegram.Send(c, Plain(Greeting), BotKeyboards.NoMarkup), Telegram.AnswerCallbackQuery]
  {
    HandleCallback(env, w, q);
  }

  /** A button press with no payload is an unrecognised command in every
      state and changes nothing. */
  lemma EmptyCallbackIgnored(env: Env, w: World, q: Telegram.CallbackQuery)
    requires q.chat.Some? && Telegram.IsNullOrEmpty(q.data)
    ensures Handled(env, w, Telegram.CallbackQueryUpdate(q)) ==
      w.(outbox := w.outbox + [Telegram.Send(q.chat.value, Plain(UnrecognizedCommand), BotKeyboards.NoMarkup), Telegram.AnswerCallbackQuery])
  {
    HandleCallback(env, w, q);
  }

  /** An update that is neither a message nor a press on a message of a
      chat is ignored. */
  lemma UnaddressedIgnored(env: Env, w: World, u: Telegram.Update)
    requires u.OtherUpdate? || (u.CallbackQueryUpdate? && u.query.chat.None?)
    ensures Handled(env, w, u) == w
  {
  }

  /** A session is completed only by an update that sends its chat the
      policy document. */
  lemma CompletedOnlyAfterIssuance(env: Env, w: World, u: Telegram.Update, k: int)
    requires KeysMatch(w.store)
    requires StateOf(w.store, k) != Some(Completed)
    requires StateOf(Handled(env, w, u).store, k) == Some(Completed)
    ensures Telegram.SendDocument(k) in Handled(env, w, u).outbox[|w.outbox|..]
  {
    var w' := Handled(env, w, u);
    assert k in Completions(w'.store) - Completions(w.store);
    Telegram.DocumentChatsMember(w'.outbox[|w.outbox|..], k);
  }

  /** Records are created only by `/start` and the `restart` button: the
      repository's update never adds a chat, so any other update leaves a
      chat without a record without one. */
  lemma {:induction false} NothingStoredWithoutStart(env: Env, w: World, u: Telegram.Update, k: int)
    requires KeysMatch(w.store) && k !in w.store
    requires u.MessageUpdate? ==> !Telegram.IsStartCommand(u.message.text)
    requires u.CallbackQueryUpdate? ==> Callbacks.Decode(u.query.data) != Callbacks.Restart
    ensures k !in Handled(env, w, u).store
  {
    var c := Telegram.ChatIdOf(u);
    if k != c {
      assert InsuranseRepository.Lookup(w.store, k) == Option.None;
    } else if u.MessageUpdate? {
      NoRecordMessage(env, w, u.message);
    } else if u.CallbackQueryUpdate? && u.query.chat.Some? {
      NoRecordCallback(env, w, u.query);
    }
  }

  lemma NoRecordMessage(env: Env, w: World, m: Telegram.Message)
    requires m.chatId !in w.store && !Telegram.IsStartCommand(m.text)
    ensures m.chatId !in Handled(env, w, Telegram.MessageUpdate(m)).store
  {
    HandleMessage(env, w, m);
  }

  lemma NoRecordCallback(env: Env, w: World, q: Telegram.CallbackQuery)
    requires q.chat.Some? && q.chat.value !in w.store && Callbacks.Decode(q.data) != Callbacks.Restart
    ensures q.chat.value !in Handled(env, w, Telegram.CallbackQueryUpdate(q)).store
  {
    HandleCallback(env, w, q);
  }

  /** Once completed, every message other than `/start` and every button
      press other than `restart` or an empty one is answered "already
      issued" and changes nothing. */
  lemma CompletedAnswersAlreadyIssued(env: Env, w: World, u: Telegram.Update)
    requires u.MessageUpdate? ==> !Telegram.IsStartCommand(u.message.text)
    requires u.CallbackQueryUpdate? ==>
      u.query.chat.Some? && !Telegram.IsNullOrEmpty(u.query.data) && Callbacks.Decode(u.query.data) != Callbacks.Restart
    requires !u.OtherUpdate?
    requires StateOf(w.store, Telegram.ChatIdOf(u)) == Some(Completed)
    ensures var c, w' := Telegram.ChatIdOf(u), Handled(env, w, u);
      && w'.store == w.store
      && w'.outbox == w.outbox + [Telegram.Send(c, Plain(AlreadyIssued), BotKeyboards.NoMarkup)]
                              + (if u.CallbackQueryUpdate? then [Telegram.AnswerCallbackQuery] else [])
  {
    if u.CallbackQueryUpdate? {
      HandleCallback(env, w, u.query);
    } else {
      HandleMessage(env, w, u.message);
    }
  }

  /** A message that is neither `/start` nor a photo, to a session that is
      not completed, is not understood and changes nothing. */
  lemma TextNotUnderstood(env: Env, w: World, m: Telegram.Message)
    requires !Telegram.IsStartCommand(m.text) && !Telegram.HasPhoto(m)
    requires StateOf(w.store, m.chatId) != Some(Completed)
    ensures Handled(env, w, Telegram.MessageUpdate(m)) == Say(w, m.chatId, UnrecognizedMessage)
  {
    HandleMessage(env, w, m);
  }

  /** A photo is read only in AwaitingPassport and AwaitingVehicleDoc; in
      any other state that is not completed it is refused and nothing else
      changes. */
  lemma PhotoGate(env: Env, w: World, m: Telegram.Message)
    requires Telegram.HasPhoto(m) && !Telegram.IsStartCommand(m.text)
    requires StateOf(w.store, m.chatId) !in {Some(AwaitingPassport), Some(AwaitingVehicleDoc), Some(Completed)}
    ensures Handled(env, w, Telegram.MessageUpdate(m)) == Say(w, m.chatId, NotExpectingPhoto)
  {
    HandleMessage(env, w, m);
  }

  /** A passport photo in AwaitingPassport: a read passport is stored with
      the state ConfirmingPassport and offered for confirmation; an empty
      reading is reported and changes nothing; a failing reading is answered
      with the error reply and changes nothing. */
  lemma PassportPhotoUpdate(env: Env, w: World, m: Telegram.Message)
    requires KeysMatch(w.store) && Telegram.HasPhoto(m) && !Telegram.IsStartCommand(m.text)
    requires StateOf(w.store, m.chatId) == Some(AwaitingPassport)
    ensures var c, w', e := m.chatId, Handled(env, w, Telegram.MessageUpdate(m)), env.extractPassport(m.photo.value);
      && (e.Extracted? ==>
            && w'.store == w.store[c := w.store[c].(passportData := Some(e.value), state := ConfirmingPassport)]
            && w'.outbox == w.outbox + [Telegram.Send(c, PassportExtracted(e.value), ConfirmationKeyboard("confirmPassport", "retryPassport"))])
      && (e.NoResult? ==> w' == Say(w, c, PassportNotRead))
      && (e.Failed? ==> w' == Say(w, c, ErrorOccurred))
  {
    HandleMessage(env, w, m);
    assert SessionFor(w.store, m.chatId) == w.store[m.chatId];
  }

  /** The same three outcomes for a vehicle document photo in
      AwaitingVehicleDoc. */
  lemma VehiclePhotoUpdate(env: Env, w: World, m: Telegram.Message)
    requires KeysMatch(w.store) && Telegram.HasPhoto(m) && !Telegram.IsStartCommand(m.text)
    requires StateOf(w.store, m.chatId) == Some(AwaitingVehicleDoc)
    ensures var c, w', e := m.chatId, Handled(env, w, Telegram.MessageUpdate(m)), env.extractVehicle(m.photo.value);
      && (e.Extracted? ==>
            && w'.store == w.store[c := w.store[c].(vehicleData := Some(e.value), state := ConfirmingVehicleDoc)]
            && w'.outbox == w.outbox + [Telegram.Send(c, VehicleExtracted(e.value), ConfirmationKeyboard("confirmVehicle", "retryVehicle"))])
      && (e.NoResult? ==> w' == Say(w, c, VehicleNotRead))
      && (e.Failed? ==> w' == Say(w, c, ErrorOccurred))
  {
    HandleMessage(env, w, m);
    assert SessionFor(w.store, m.chatId) == w.store[m.chatId];
  }

  /** In ConfirmingPassport and ConfirmingVehicleDoc a button press stores
      the state the table names; any other press but `restart` is answered
      as invalid, acknowledged, and changes nothing. */
  lemma ConfirmationCallbackUpdate(env: Env, w: World, q: Telegram.CallbackQuery)
    requires q.chat.Some? && KeysMatch(w.store)
    requires !Telegram.IsNullOrEmpty(q.data) && Callbacks.Decode(q.data) != Callbacks.Restart
    requires StateOf(w.store, q.chat.value) in {Some(ConfirmingPassport), Some(ConfirmingVehicleDoc)}
    ensures var c, w' := q.chat.value, Handled(env, w, Telegram.CallbackQueryUpdate(q));
      var t := CallbackTarget(w.store[c].state, Callbacks.Decode(q.data));
      && (t.Some? ==> w'.store == w.store[c := w.store[c].(state := t.value)])
      && (t.None? ==> w' == w.(outbox := w.outbox + [Telegram.Send(c, Plain(InvalidAction), BotKeyboards.NoMarkup),
                                                    Telegram.AnswerCallbackQuery]))
  {
    HandleCallback(env, w, q);
    assert SessionFor(w.store, q.chat.value) == w.store[q.chat.value];
  }

  /** In AwaitingPriceConfirmation `agreePrice` completes the session exactly
      when both records are present and the document was delivered
      (otherwise it stays in GeneratingPolicy), `declinePrice` keeps the
      offer open, and any other payload but `restart` changes nothing. */
  lemma PriceCallbackUpdate(env: Env, w: World, q: Telegram.CallbackQuery)
    requires q.chat.Some? && KeysMatch(w.store)
    requires StateOf(w.store, q.chat.value) == Some(AwaitingPriceConfirmation)
    ensures var c, w', a := q.chat.value, Handled(env, w, Telegram.CallbackQueryUpdate(q)), Callbacks.Decode(q.data);
      && (a == Callbacks.AgreePrice ==>
            StateOf(w'.store, c) == Some(if Complete(w.store[c]) && env.policySent then Completed else GeneratingPolicy))
      && (a == Callbacks.DeclinePrice ==> w'.store == w.store)
      && (PriceTable(a).None? && a != Callbacks.Restart ==> w'.store == w.store)
  {
    HandleCallback(env, w, q);
    assert SessionFor(w.store, q.chat.value) == w.store[q.chat.value];
  }

  /** Confirming the read vehicle document stores AwaitingPriceConfirmation
      and sends the price offer with its buttons; the press is answered
      last. */
  lemma VehicleDocConfirmedOffersPrice(env: Env, w: World, q: Telegram.CallbackQuery)
    requires q.chat.Some? && KeysMatch(w.store)
    requires StateOf(w.store, q.chat.value) == Some(ConfirmingVehicleDoc)
    requires Callbacks.Decode(q.data) == Callbacks.ConfirmVehicle
    ensures var c, w' := q.chat.value, Handled(env, w, Telegram.CallbackQueryUpdate(q));
      && w'.store == w.store[c := w.store[c].(state := AwaitingPriceConfirmation)]
      && w'.outbox == w.outbox + [Telegram.Send(c, Plain(PriceOffer), PriceKeyboard), Telegram.AnswerCallbackQuery]
  {
    HandleCallback(env, w, q);
    assert SessionFor(w.store, q.chat.value) == w.store[q.chat.value];
  }

  /** Declining the offer keeps AwaitingPriceConfirmation and sends the
      "no other prices" message with the accept and restart buttons; the
      press is answered last. */
  lemma PriceDeclinedReply(env: Env, w: World, q: Telegram.CallbackQuery)
    requires q.chat.Some? && KeysMatch(w.store)
    requires StateOf(w.store, q.chat.value) == Some(AwaitingPriceConfirmation)
    requires Callbacks.Decode(q.data) == Callbacks.DeclinePrice
    ensures var c, w' := q.chat.value, Handled(env, w, Telegram.CallbackQueryUpdate(q));
      && w' == w.(outbox := w.outbox + [Telegram.Send(c, Plain(NoOtherPrices), DeclinedKeyboard), Telegram.AnswerCallbackQuery])
  {
    HandleCallback(env, w, q);
    assert SessionFor(w.store, q.chat.value) == w.store[q.chat.value];
  }

  /** No button completes a session, only `agreePrice` starts issuance, and
      only the buttons of the table of the current state move it. */
  lemma CallbackTargets(state: ConversationState, a: Callbacks.Action)
    ensures CallbackTarget(state, a) != Some(Completed)
    ensures CallbackTarget(state, a) == Some(GeneratingPolicy) <==> state == AwaitingPriceConfirmation && a == Callbacks.AgreePrice
    ensures CallbackTarget(state, a).Some? ==> state in {ConfirmingPassport, ConfirmingVehicleDoc, AwaitingPriceConfirmation}
  {
  }

  // ---------------------------------------------------------------------
  // The handler object

  /** The handler: the session repository it shares with the rest of the
      process and the replies it has sent. Each method is proved to do what
      the function of the same step above describes. */
  class BotUpdateHandler {
    const repository: InsuranseRepository.UserSessionRepositoryInMemory
    var outbox: seq<Telegram.Reply<Body>>

    constructor(repository: InsuranseRepository.UserSessionRepositoryInMemory)
      ensures this.repository == repository && outbox == []
    {
      this.repository := repository;
      outbox := [];
    }

    function Snapshot(): World
      reads this, repository
    {
      World(repository.sessions, outbox)
    }

    method Send(chatId: int, body: Body, markup: BotKeyboards.Markup)
      modifies this
      ensures Snapshot() == Sent(old(Snapshot()), chatId, body, markup)
    {
      outbox := outbox + [Telegram.Send(chatId, body, markup)];
    }

    method SendText(chatId: int, p: Phrase)
      modifies this
      ensures Snapshot() == Say(old(Snapshot()), chatId, p)
    {
      Send(chatId, Plain(p), BotKeyboards.NoMarkup);
    }

    method GetOrCreateSession(chatId: int) returns (s: UserSession)
      ensures s == SessionFor(repository.sessions, chatId)
    {
      var stored := repository.Get(chatId);
      if stored.Some? {
        s := stored.value;
      } else {
        s := NewSession(chatId, ConversationState.None);
      }
    }

    method HandleStartCommand(chatId: int)
      modifies this, repository
      ensures Snapshot() == Start(old(Snapshot()), chatId)
    {
      var found := repository.Delete(chatId);
      var added := repository.Add(NewSession(chatId, AwaitingPassport));
      SendText(chatId, Greeting);
    }

    /** `HandlePassportPhotoAsync`; `fault` reports an exception of the
        reading service. */
    method HandlePassportPhoto(env: Env, chatId: int, photo: Telegram.Bytes, session: UserSession) returns (fault: bool)
      modifies this, repository
      ensures (Snapshot(), fault) == PassportPhoto(env, old(Snapshot()), chatId, photo, session)
    {
      var result := env.extractPassport(photo);
      if result.Failed? {
        return true;
      }
      if result.NoResult? {
        SendText(chatId, PassportNotRead);
        return false;
      }
      var s := session.(passportData := Some(result.value), state := ConfirmingPassport);
      repository.Update(s);
      Send(chatId, PassportExtracted(result.value), ConfirmationKeyboard("confirmPassport", "retryPassport"));
      return false;
    }

    /** `HandleVehiclePhotoAsync`. */
    method HandleVehiclePhoto(env: Env, chatId: int, photo: Telegram.Bytes, session: UserSession) returns (fault: bool)
      modifies this, repository
      ensures (Snapshot(), fault) == VehiclePhoto(env, old(Snapshot()), chatId, photo, session)
    {
      var result := env.extractVehicle(photo);
      if result.Failed? {
        return true;
      }
      if result.NoResult? {
        SendText(chatId, VehicleNotRead);
        return false;
      }
      var s := session.(vehicleData := Some(result.value), state := ConfirmingVehicleDoc);
      repository.Update(s);
      Send(chatId, VehicleExtracted(result.value), ConfirmationKeyboard("confirmVehicle", "retryVehicle"));
      return false;
    }

    /** `HandlePhotoMessageAsync`. */
    method HandlePhotoMessage(env: Env, chatId: int, photo: Telegram.Bytes, session: UserSession)
      modifies this, repository
      ensures Snapshot() == PhotoMessage(env, old(Snapshot()), chatId, photo, session)
    {
      var fault := false;
      if session.state == AwaitingPassport {
        fault := HandlePassportPhoto(env, chatId, photo, session);
      } else if session.state == AwaitingVehicleDoc {
        fault := HandleVehiclePhoto(env, chatId, photo, session);
      } else {
        SendText(chatId, NotExpectingPhoto);
      }
      if fault {
        SendText(chatId, ErrorOccurred);
      }
    }

    method HandlePassportConfirmationCallbacks(data: Option<string>, chatId: int, session: UserSession)
      modifies this, repository
      ensures Snapshot() == PassportConfirmationCallbacks(old(Snapshot()), Callbacks.Decode(data), chatId, session)
    {
      match Callbacks.Decode(data)
      case ConfirmPassport =>
        repository.Update(session.(state := AwaitingVehicleDoc));
        SendText(chatId, PassportConfirmed);
      case RetryPassport =>
        repository.Update(session.(state := AwaitingPassport));
        SendText(chatId, RetryPassportPrompt);
      case _ =>
        SendText(chatId, InvalidAction);
    }

    method RequestPriceConfirmation(chatId: int)
      modifies this
      ensures Snapshot() == Sent(old(Snapshot()), chatId, Plain(PriceOffer), PriceKeyboard)
    {
      Send(chatId, Plain(PriceOffer), PriceKeyboard);
    }

    method HandleVehicleConfirmationCallbacks(data: Option<string>, chatId: int, session: UserSession)
      modifies this, repository
      ensures Snapshot() == VehicleConfirmationCallbacks(old(Snapshot()), Callbacks.Decode(data), chatId, session)
    {
      match Callbacks.Decode(data)
      case ConfirmVehicle =>
        repository.Update(session.(state := AwaitingPriceConfirmation));
        RequestPriceConfirmation(chatId);
      case RetryVehicle =>
        repository.Update(session.(state := AwaitingVehicleDoc));
        SendText(chatId, RetryVehiclePrompt);
      case _ =>
        SendText(chatId, InvalidAction);
    }

    /** `GenerateAndSendPolicyAsync`. */
    method GenerateAndSendPolicy(env: Env, chatId: int, session: UserSession)
      modifies this, repository
      ensures Snapshot() == PolicyGenerated(env, old(Snapshot()), chatId, session)
    {
      if session.passportData.None? || session.vehicleData.None? {
        SendText(chatId, PolicyError);
        return;
      }
      if !env.policySent {
        SendText(chatId, ErrorOccurred);
        return;
      }
      outbox := outbox + [Telegram.SendDocument(chatId)];
      repository.Update(session.(state := Completed));
      SendText(chatId, PolicyIssued);
    }

    method HandlePriceConfirmationCallbacks(env: Env, data: Option<string>, chatId: int, session: UserSession)
      modifies this, repository
      ensures Snapshot() == PriceConfirmationCallbacks(env, old(Snapshot()), Callbacks.Decode(data), chatId, session)
    {
      match Callbacks.Decode(data)
      case AgreePrice =>
        var s := session.(state := GeneratingPolicy);
        repository.Update(s);
        GenerateAndSendPolicy(env, chatId, s);
      case DeclinePrice =>
        repository.Update(session.(state := AwaitingPriceConfirmation));
        Send(chatId, Plain(NoOtherPrices), DeclinedKeyboard);
      case _ =>
        SendText(chatId, InvalidAction);
    }

    /** `HandleCallbackDataAsync`. */
    method HandleCallbackData(env: Env, data: Option<string>, chatId: int, session: UserSession)
      modifies this, repository
      ensures Snapshot() == CallbackData(env, old(Snapshot()), data, chatId, session)
    {
      if Telegram.IsNullOrEmpty(data) {
        SendText(chatId, UnrecognizedCommand);
        return;
      }
      if Callbacks.Decode(data) == Callbacks.Restart {
        HandleStartCommand(chatId);
        return;
      }
      match session.state {
        case ConfirmingPassport =>
          HandlePassportConfirmationCallbacks(data, chatId, session);
        case ConfirmingVehicleDoc =>
          HandleVehicleConfirmationCallbacks(data, chatId, session);
        case AwaitingPriceConfirmation =>
          HandlePriceConfirmationCallbacks(env, data, chatId, session);
        case Completed =>
          SendText(chatId, AlreadyIssued);
        case _ =>
          SendText(chatId, NoLongerAvailable);
      }
    }

    /** `HandleMessageUpdateAsync`. */
    method HandleMessageUpdate(env: Env, m: Telegram.Message)
      modifies this, repository
      ensures Snapshot() == Handled(env, old(Snapshot()), Telegram.MessageUpdate(m))
    {
      var chatId := m.chatId;
      if Telegram.IsStartCommand(m.text) {
        HandleStartCommand(chatId);
        return;
      }
      var session := GetOrCreateSession(chatId);
      if session.state == Completed {
        SendText(chatId, AlreadyIssued);
      } else if Telegram.HasPhoto(m) {
        HandlePhotoMessage(env, chatId, m.photo.value, session);
      } else {
        SendText(chatId, UnrecognizedMessage);
      }
    }

    /** `HandleCallbackQueryUpdateAsync`. */
    method HandleCallbackQueryUpdate(env: Env, q: Telegram.CallbackQuery)
      modifies this, repository
      ensures Snapshot() == Handled(env, old(Snapshot()), Telegram.CallbackQueryUpdate(q))
    {
      if q.chat.None? {
        return;
      }
      var chatId := q.chat.value;
      var session := GetOrCreateSession(chatId);
      HandleCallbackData(env, q.data, chatId, session);
      outbox := outbox + [Telegram.AnswerCallbackQuery];
    }

    /** `HandleUpdateAsync`. */
    method HandleUpdate(env: Env, u: Telegram.Update)
      modifies this, repository
      ensures Snapshot() == Handled(env, old(Snapshot()), u)
    {
      match u
      case MessageUpdate(m) =>
        HandleMessageUpdate(env, m);
      case CallbackQueryUpdate(q) =>
        HandleCallbackQueryUpdate(env, q);
      case OtherUpdate =>
    }
  }
}
