/** The update handler at the root of the `CarInsuranceTelegramBot`
    project: the same conversation as the `Services/` revision, but with its
    replies written inline, no guard against an update without a chat,
    `restart` honoured in every state, the vehicle buttons also honoured
    while a photo is awaited, and a button press acknowledged after it is
    handled. Each step is a function on the world, carried out by a method
    of `BotUpdateHandler`. */
module RootHandler {
  import opened Wrappers
  import opened Models
  import opened Conversation
  import BotKeyboards
  import Telegram
  import ManualEntry
  import Numbers
  import Dates
  import Repository
  import Callbacks

  /** The fixed replies of this revision, each named after what it says;
      `Wording` gives its text. */
  datatype Phrase =
    | Greeting | ErrorOccurred | UnrecognizedMessage | UnrecognizedCommand
    | AlreadyIssued | NotExpectingPhoto | NoLongerAvailable | InvalidAction
    | PassportFormatError | PassportDateError | VehicleFormatError | VehicleYearError
    | RetryPassportPrompt | ManualPassportPrompt | PassportConfirmed
    | RetryFrontPrompt | FrontConfirmed | RetryBackPrompt | ManualVehiclePrompt
    | PassportExtractionFailed | VehicleExtractionFailed
    | PriceOffer | NoOtherPrices | PolicyError | PolicyIssued

  function Wording(p: Phrase): string {
    match p
    case Greeting => "Hi! I'm a bot that helps you purchase car insurance. \nTo get started, please send a photo of your passport."
    case ErrorOccurred => "Sorry, an error occurred. Please try again or use /start to begin a new session."
    case UnrecognizedMessage => "I don't understand this message. Please use /start to begin or follow the instructions."
    case UnrecognizedCommand => "Unrecognized command. Use /start to begin."
    case AlreadyIssued => "Your insurance policy has already been issued. Use /start to purchase a new policy."
    case NotExpectingPhoto => "I'm not currently expecting a photo. Use /start to begin a new session."
    case NoLongerAvailable => "This action is no longer available. Use /start to begin a new session."
    case InvalidAction => "This action is not valid in the current context. Please follow the provided options."
    case PassportFormatError => "Wrong message format. Try again. And follow this example:\nFull Name;Passport Number;Passport Date Of Birth;Date Of Issue;Date Of Expire\nDate format example: '31.12.2000'"
    case PassportDateError => "Can't read date. Be sure that date have correct format dd.MM.yyyy and try again."
    case VehicleFormatError => "Wrong input!"
    case VehicleYearError => "Can't read year. Be sure that you follow example:\nVIN;Make,Model;Year;Registration Number\n and try again."
    case RetryPassportPrompt => "Let's try again. Please send a clear photo of your passport."
    case ManualPassportPrompt => "Entering passport data in message next way:\nFull Name;Passport Number;Passport Date Of Birth;Date Of Issue;Date Of Expire\nDate format example: '31.12.2000'"
    case PassportConfirmed => "Passport confirmed. Please send a photo of your front vehicle registration document."
    case RetryFrontPrompt => "Let's try again. Please send a clear photo of your front side vehicle registration."
    case FrontConfirmed => "Front side confirmed. Now send the BACK side of your vehicle document."
    case RetryBackPrompt => "Let's try again. Please send a clear photo of your back side vehicle registration."
    case ManualVehiclePrompt => "Entering vehicle data in message next way:\n«VIN;Model;Make;Year;Registration number»"
    case PassportExtractionFailed => "Can't extract data from photo. What you want to do?"
    case VehicleExtractionFailed => "Can't extract data from photo. Next step?"
    case PriceOffer => "Your vehicle insurance price is 100 USD. Do you accept this offer?"
    case NoOtherPrices => "Unfortunately, we don't have different pricing options available at this time."
    case PolicyError => "Sorry, there was an error generating your policy. Please start over with /start"
    case PolicyIssued => "Thank you for purchasing insurance! Your policy has been issued. Use /start if you'd like to purchase another policy."
  }

  /** A reply's text: a fixed phrase, or one that renders what was entered
      or read. */
  datatype Body =
    | Plain(phrase: Phrase)
    | PassportEntered(passport: PassportData)
    | VehicleEntered(vehicle: VehicleData)
    | PassportExtracted(passport: PassportData)
    | FrontExtracted(registrationNumber: string, year: int)
    | BackExtracted(vin: string, model: string, make: string)
    | VehicleSummary(vehicle: VehicleData)

  /** The keyboards this revision builds inline after a successful
      extraction and with the vehicle summary; they differ from the shared
      ones only in the label of the manual-entry button. */
  const PassportExtractedKeyboard := BotKeyboards.Inline([
    [BotKeyboards.WithCallbackData("✅ Confirm", "confirmPassport"),
     BotKeyboards.WithCallbackData("🔄 Try again with photo", "retryPassport")],
    [BotKeyboards.WithCallbackData("✍️ Enter manual", "manualPassport")]])

  const FrontExtractedKeyboard := BotKeyboards.Inline([
    [BotKeyboards.WithCallbackData("✅ Confirm", "confirmVehicleFront"),
     BotKeyboards.WithCallbackData("🔄 Try again with photo", "retryVehicleFront")],
    [BotKeyboards.WithCallbackData("✍️ Enter manual", "manualVehicle")]])

  const BackExtractedKeyboard := BotKeyboards.Inline([
    [BotKeyboards.WithCallbackData("✅ Confirm", "confirmVehicleBack"),
     BotKeyboards.WithCallbackData("🔄 Try again with photo", "retryVehicleBack")],
    [BotKeyboards.WithCallbackData("✍️ Enter manual", "manualVehicle")]])

  const VehicleSummaryKeyboard := BotKeyboards.Inline([
    [BotKeyboards.WithCallbackData("✅ Confirm", "confirmVehicleDoc"),
     BotKeyboards.WithCallbackData("🔄 Try again with photo", "retryVehicleFront")],
    [BotKeyboards.WithCallbackData("✍️ Enter manual", "manualVehicle")]])

  /** The inline keyboards offer the same buttons as the shared ones. */
  lemma InlineKeyboardPayloads()
    ensures BotKeyboards.Payloads(PassportExtractedKeyboard) == BotKeyboards.Payloads(BotKeyboards.PassportConfirmationKeyboard)
    ensures BotKeyboards.Payloads(FrontExtractedKeyboard) == BotKeyboards.Payloads(BotKeyboards.VehicleFrontConfirmationKeyboard)
    ensures BotKeyboards.Payloads(BackExtractedKeyboard) == BotKeyboards.Payloads(BotKeyboards.VehicleBackConfirmationKeyboard)
    ensures BotKeyboards.Payloads(VehicleSummaryKeyboard) == BotKeyboards.Payloads(BotKeyboards.VehicleDocConfirmationKeyboard)
  {
    BotKeyboards.PassportConfirmationPayloads();
    BotKeyboards.VehicleConfirmationPayloads();
  }

  function Say(w: World<Body>, chatId: int, p: Phrase): World<Body> {
    Sent(w, chatId, Plain(p), BotKeyboards.NoMarkup)
  }

  lemma SayStep(w: World<Body>, chatId: int, p: Phrase)
    ensures Step(w, Say(w, chatId, p), {})
  {
    SentStep(w, chatId, Plain(p), BotKeyboards.NoMarkup);
  }

  /** `HandleStartCommandAsync`. */
  function Start(w: World<Body>, chatId: int): World<Body> {
    Restarted(w, chatId, Plain(Greeting))
  }

  /** `RequestPriceConfirmationAsync`. */
  function PriceRequested(w: World<Body>, chatId: int): World<Body> {
    Sent(w, chatId, Plain(PriceOffer), BotKeyboards.PriceConfirmationKeyboard)
  }

  // ---------------------------------------------------------------------
  // Manual entry

  /** `HandleManualPassportTextAsync`: five fields and three dates that read
      as dd.MM.yyyy; no range or order check. */
  function ManualPassportText(w: World<Body>, chatId: int, text: string, s: Session): (o: Outcome<Body>)
    ensures !o.fault
    ensures var f := ManualEntry.Fields(text);
      && (|f| != ManualEntry.FieldCount ==> o == Outcome(Say(w, chatId, PassportFormatError), s, false))
      && (|f| == ManualEntry.FieldCount && ManualEntry.PassportFromFields(f).None? ==>
            o == Outcome(Say(w, chatId, PassportDateError), s, false))
      && (|f| == ManualEntry.FieldCount && ManualEntry.PassportFromFields(f).Some? ==>
            && o.session == s.(passportData := ManualEntry.PassportFromFields(f), state := ConfirmingPassport)
            && o.world.store == Repository.Updated(w.store, o.session))
    ensures Step(w, o.world, {s.chatId})
  {
    var f := ManualEntry.Fields(text);
    if |f| != ManualEntry.FieldCount then
      SayStep(w, chatId, PassportFormatError);
      Outcome(Say(w, chatId, PassportFormatError), s, false)
    else match ManualEntry.PassportFromFields(f)
      case None =>
        SayStep(w, chatId, PassportDateError);
        Outcome(Say(w, chatId, PassportDateError), s, false)
      case Some(p) =>
        var s1 := s.(passportData := Some(p), state := ConfirmingPassport);
        var w1 := Persisted(w, s1);
        PersistedStep(w, s1);
        SentStep(w1, chatId, PassportEntered(p), BotKeyboards.PassportConfirmationKeyboard);
        StepTrans(w, w1, Sent(w1, chatId, PassportEntered(p), BotKeyboards.PassportConfirmationKeyboard), {s.chatId}, {});
        Outcome(Sent(w1, chatId, PassportEntered(p), BotKeyboards.PassportConfirmationKeyboard), s1, false)
  }

  /** `HandleManualVehicleTextAsync`: five fields and a year `int.Parse`
      reads; only its `FormatException` is caught, so a year too large for
      `int` escapes as a fault. */
  function ManualVehicleText(w: World<Body>, chatId: int, text: string, s: Session): (o: Outcome<Body>)
    ensures var f := ManualEntry.Fields(text);
      && (|f| != ManualEntry.FieldCount ==> o == Outcome(Say(w, chatId, VehicleFormatError), s, false))
      && (|f| == ManualEntry.FieldCount && ManualEntry.VehicleFromFields(f) == Err(Numbers.OverflowError) ==>
            o == Outcome(w, s, true))
      && (|f| == ManualEntry.FieldCount && ManualEntry.VehicleFromFields(f) == Err(Numbers.FormatError) ==>
            o == Outcome(Say(w, chatId, VehicleYearError), s, false))
      && (|f| == ManualEntry.FieldCount && ManualEntry.VehicleFromFields(f).Ok? ==>
            && !o.fault
            && o.session == s.(vehicleData := Some(ManualEntry.VehicleFromFields(f).value), state := ConformingVehicleDoc)
            && o.world.store == Repository.Updated(w.store, o.session))
    ensures Step(w, o.world, {s.chatId})
  {
    var f := ManualEntry.Fields(text);
    if |f| != ManualEntry.FieldCount then
      SayStep(w, chatId, VehicleFormatError);
      Outcome(Say(w, chatId, VehicleFormatError), s, false)
    else match ManualEntry.VehicleFromFields(f)
      case Err(e) =>
        if e == Numbers.OverflowError then Outcome(w, s, true)
        else
          SayStep(w, chatId, VehicleYearError);
          Outcome(Say(w, chatId, VehicleYearError), s, false)
      case Ok(v) =>
        var s1 := s.(vehicleData := Some(v), state := ConformingVehicleDoc);
        var w1 := Persisted(w, s1);
        PersistedStep(w, s1);
        SentStep(w1, chatId, VehicleEntered(v), BotKeyboards.VehicleDocConfirmationKeyboard);
        StepTrans(w, w1, Sent(w1, chatId, VehicleEntered(v), BotKeyboards.VehicleDocConfirmationKeyboard), {s.chatId}, {});
        Outcome(Sent(w1, chatId, VehicleEntered(v), BotKeyboards.VehicleDocConfirmationKeyboard), s1, false)
  }

  // ---------------------------------------------------------------------
  // Photos

  /** `HandlePassportPhotoAsync`: ConfirmingPassport is stored before
      extraction; a failed extraction keeps the passport. */
  function PassportPhoto(env: Env, w: World<Body>, chatId: int, photo: Telegram.Bytes, s: Session): (o: Outcome<Body>)
    ensures !o.fault
    ensures o.session == s.(state := ConfirmingPassport,
      passportData := if env.extractPassport(photo).Some? then env.extractPassport(photo) else s.passportData)
    ensures o.world.store == Repository.Updated(w.store, o.session)
    ensures Step(w, o.world, {s.chatId})
  {
    var s1 := s.(state := ConfirmingPassport);
    var w1 := Persisted(w, s1);
    PersistedStep(w, s1);
    match env.extractPassport(photo)
    case None =>
      var w2 := Sent(w1, chatId, Plain(PassportExtractionFailed), BotKeyboards.PassportExtractionFailedKeyboard);
      SentStep(w1, chatId, Plain(PassportExtractionFailed), BotKeyboards.PassportExtractionFailedKeyboard);
      StepTrans(w, w1, w2, {s.chatId}, {});
      Outcome(w2, s1, false)
    case Some(p) =>
      var s2 := s1.(passportData := Some(p));
      var w2 := Persisted(w1, s2);
      var w3 := Sent(w2, chatId, PassportExtracted(p), PassportExtractedKeyboard);
      Repository.UpdateSuperseded(w.store, s1, s2);
      PersistedStep(w, s2);
      SentStep(w2, chatId, PassportExtracted(p), PassportExtractedKeyboard);
      StepTrans(w, w2, w3, {s.chatId}, {});
      Outcome(w3, s2, false)
  }

  /** `HandleVehicleFrontPhotoAsync`: ConfirmingVehicleDocFront is stored
      before extraction; a successful one writes the registration number and
      the year into the vehicle record, creating it if needed. */
  function VehicleFrontPhoto(env: Env, w: World<Body>, chatId: int, photo: Telegram.Bytes, s: Session): (o: Outcome<Body>)
    ensures !o.fault
    ensures var r := env.extractFront(photo);
      o.session == s.(state := ConfirmingVehicleDocFront,
        vehicleData := if r.Some? then Some(WithFront(s.vehicleData, r.value)) else s.vehicleData)
    ensures o.world.store == Repository.Updated(w.store, o.session)
    ensures Step(w, o.world, {s.chatId})
  {
    var s1 := s.(state := ConfirmingVehicleDocFront);
    var w1 := Persisted(w, s1);
    PersistedStep(w, s1);
    match env.extractFront(photo)
    case None =>
      var w2 := Sent(w1, chatId, Plain(VehicleExtractionFailed), BotKeyboards.VehicleFrontExtractionFailedKeyboard);
      SentStep(w1, chatId, Plain(VehicleExtractionFailed), BotKeyboards.VehicleFrontExtractionFailedKeyboard);
      StepTrans(w, w1, w2, {s.chatId}, {});
      Outcome(w2, s1, false)
    case Some(f) =>
      var s2 := s1.(vehicleData := Some(WithFront(s1.vehicleData, f)));
      var w2 := Persisted(w1, s2);
      var body := FrontExtracted(f.registrationNumber, f.year);
      var w3 := Sent(w2, chatId, body, FrontExtractedKeyboard);
      Repository.UpdateSuperseded(w.store, s1, s2);
      PersistedStep(w, s2);
      SentStep(w2, chatId, body, FrontExtractedKeyboard);
      StepTrans(w, w2, w3, {s.chatId}, {});
      Outcome(w3, s2, false)
  }

  /** `HandleVehicleBackPhotoAsync`: the same for the back side, which
      writes the VIN, the model and the make. */
  function VehicleBackPhoto(env: Env, w: World<Body>, chatId: int, photo: Telegram.Bytes, s: Session): (o: Outcome<Body>)
    ensures !o.fault
    ensures var r := env.extractBack(photo);
      o.session == s.(state := ConfirmingVehicleDocBack,
        vehicleData := if r.Some? then Some(WithBack(s.vehicleData, r.value)) else s.vehicleData)
    ensures o.world.store == Repository.Updated(w.store, o.session)
    ensures Step(w, o.world, {s.chatId})
  {
    var s1 := s.(state := ConfirmingVehicleDocBack);
    var w1 := Persisted(w, s1);
    PersistedStep(w, s1);
    match env.extractBack(photo)
    case None =>
      var w2 := Sent(w1, chatId, Plain(VehicleExtractionFailed), BotKeyboards.VehicleBackExtractionFailedKeyboard);
      SentStep(w1, chatId, Plain(VehicleExtractionFailed), BotKeyboards.VehicleBackExtractionFailedKeyboard);
      StepTrans(w, w1, w2, {s.chatId}, {});
      Outcome(w2, s1, false)
    case Some(b) =>
      var s2 := s1.(vehicleData := Some(WithBack(s1.vehicleData, b)));
      var w2 := Persisted(w1, s2);
      var body := BackExtracted(b.vin, b.model, b.make);
      var w3 := Sent(w2, chatId, body, BackExtractedKeyboard);
      Repository.UpdateSuperseded(w.store, s1, s2);
      PersistedStep(w, s2);
      SentStep(w2, chatId, body, BackExtractedKeyboard);
      StepTrans(w, w2, w3, {s.chatId}, {});
      Outcome(w3, s2, false)
  }

  /** The states in which a photo is read. */
  predicate AwaitsPhoto(state: ConversationState) {
    state == AwaitingPassport || state == AwaitingVehicleFront || state == AwaitingVehicleBack
  }

  /** `HandlePhotoMessageAsync`: a photo goes to the reader the state
      expects, and in any other state is refused. */
  function PhotoMessage(env: Env, w: World<Body>, chatId: int, photo: Telegram.Bytes, s: Session): (o: Outcome<Body>)
    ensures !o.fault
    ensures !AwaitsPhoto(s.state) ==> o == Outcome(Say(w, chatId, NotExpectingPhoto), s, false)
    ensures AwaitsPhoto(s.state) ==> o.world.store == Repository.Updated(w.store, o.session)
    ensures Step(w, o.world, {s.chatId})
  {
    match s.state
    case AwaitingPassport => PassportPhoto(env, w, chatId, photo, s)
    case AwaitingVehicleFront => VehicleFrontPhoto(env, w, chatId, photo, s)
    case AwaitingVehicleBack => VehicleBackPhoto(env, w, chatId, photo, s)
    case _ =>
      SayStep(w, chatId, NotExpectingPhoto);
      Outcome(Say(w, chatId, NotExpectingPhoto), s, false)
  }

  // ---------------------------------------------------------------------
  // Button presses

  function PassportTable(a: Callbacks.Action): Option<ConversationState> {
    match a
    case RetryPassport => Some(AwaitingPassport)
    case ManualPassport => Some(EnteringPassportData)
    case ConfirmPassport => Some(AwaitingVehicleFront)
    case _ => Option.None
  }

  function VehicleTable(a: Callbacks.Action): Option<ConversationState> {
    match a
    case RetryVehicleFront => Some(AwaitingVehicleFront)
    case ConfirmVehicleFront => Some(AwaitingVehicleBack)
    case RetryVehicleBack => Some(AwaitingVehicleBack)
    case ConfirmVehicleBack => Some(ConformingVehicleDoc)
    case ConfirmVehicleDoc => Some(AwaitingPriceConfirmation)
    case ManualVehicle => Some(EnteringVehicleData)
    case _ => Option.None
  }

  function PriceTable(a: Callbacks.Action): Option<ConversationState> {
    match a
    case AgreePrice => Some(GeneratingPolicy)
    case DeclinePrice => Some(AwaitingPriceConfirmation)
    case _ => Option.None
  }

  /** The states whose button presses go to the vehicle table: the three
      confirming states and, for a button left on an older message, the two
      states awaiting a photo. */
  predicate VehicleButtonsState(state: ConversationState) {
    state == ConfirmingVehicleDocFront || state == ConfirmingVehicleDocBack || state == ConformingVehicleDoc
    || state == AwaitingVehicleFront || state == AwaitingVehicleBack
  }

  /** The state a button press other than `restart` moves a session to. */
  function CallbackTarget(state: ConversationState, a: Callbacks.Action): Option<ConversationState> {
    if state == ConfirmingPassport then PassportTable(a)
    else if VehicleButtonsState(state) then VehicleTable(a)
    else if state == AwaitingPriceConfirmation then PriceTable(a)
    else Option.None
  }

  /** `HandlePassportConfirmationCallbacks`. */
  function PassportConfirmationCallbacks(w: World<Body>, data: Option<string>, chatId: int, s: Session): (o: Outcome<Body>)
    ensures !o.fault
    ensures var t := PassportTable(Callbacks.Decode(data));
      && (t.Some? ==> o.session == s.(state := t.value) && o.world.store == Repository.Updated(w.store, o.session))
      && (t.None? ==> o == Outcome(Say(w, chatId, InvalidAction), s, false))
    ensures Step(w, o.world, {s.chatId})
  {
    var a := Callbacks.Decode(data);
    match PassportTable(a)
    case None =>
      SayStep(w, chatId, InvalidAction);
      Outcome(Say(w, chatId, InvalidAction), s, false)
    case Some(next) =>
      var s1 := s.(state := next);
      var w1 := Persisted(w, s1);
      PersistedStep(w, s1);
      var p :=
        if a.RetryPassport? then RetryPassportPrompt
        else if a.ManualPassport? then ManualPassportPrompt
        else PassportConfirmed;
      SayStep(w1, chatId, p);
      StepTrans(w, w1, Say(w1, chatId, p), {s.chatId}, {});
      Outcome(Say(w1, chatId, p), s1, false)
  }

  /** `HandleVehicleConfirmationCallbacks`; confirming the back side without
      a vehicle record throws while rendering the summary, after the new
      state was stored. */
  function VehicleConfirmationCallbacks(w: World<Body>, data: Option<string>, chatId: int, s: Session): (o: Outcome<Body>)
    ensures o.fault <==> Callbacks.Decode(data) == Callbacks.ConfirmVehicleBack && s.vehicleData.None?
    ensures var t := VehicleTable(Callbacks.Decode(data));
      && (t.Some? ==> o.session == s.(state := t.value) && o.world.store == Repository.Updated(w.store, o.session))
      && (t.None? ==> o == Outcome(Say(w, chatId, InvalidAction), s, false))
    ensures Step(w, o.world, {s.chatId})
  {
    var a := Callbacks.Decode(data);
    match VehicleTable(a)
    case None =>
      SayStep(w, chatId, InvalidAction);
      Outcome(Say(w, chatId, InvalidAction), s, false)
    case Some(next) =>
      var s1 := s.(state := next);
      var w1 := Persisted(w, s1);
      PersistedStep(w, s1);
      if a.ConfirmVehicleBack? && s1.vehicleData.None? then
        Outcome(w1, s1, true)
      else
        var w2 :=
          if a.RetryVehicleFront? then Say(w1, chatId, RetryFrontPrompt)
          else if a.ConfirmVehicleFront? then Say(w1, chatId, FrontConfirmed)
          else if a.RetryVehicleBack? then Say(w1, chatId, RetryBackPrompt)
          else if a.ConfirmVehicleBack? then Sent(w1, chatId, VehicleSummary(s1.vehicleData.value), VehicleSummaryKeyboard)
          else if a.ConfirmVehicleDoc? then PriceRequested(w1, chatId)
          else Say(w1, chatId, ManualVehiclePrompt);
        assert w2.outbox[|w1.outbox|..] == [w2.outbox[|w1.outbox|]];
        StepTrans(w, w1, w2, {s.chatId}, {});
        Outcome(w2, s1, false)
  }

  /** Whether the session holds both records a policy needs. */
  predicate Complete(s: Session) {
    s.passportData.Some? && s.vehicleData.Some?
  }

  /** `GenerateAndSendPolicyAsync`: with both records and a delivered
      document the session is completed; otherwise it stays where it was. */
  function PolicyGenerated(env: Env, w: World<Body>, chatId: int, s: Session): (o: Outcome<Body>)
    ensures !o.fault
    ensures Complete(s) && env.policySent ==>
      && o.session == s.(state := Completed)
      && o.world.store == Repository.Updated(w.store, o.session)
      && |w.outbox| <= |o.world.outbox| && Telegram.SendDocument(chatId) in o.world.outbox[|w.outbox|..]
    ensures !Complete(s) ==> o == Outcome(Say(w, chatId, PolicyError), s, false)
    ensures Complete(s) && !env.policySent ==> o == Outcome(Say(w, chatId, ErrorOccurred), s, false)
    ensures s.chatId == chatId ==> Step(w, o.world, {s.chatId})
  {
    if !Complete(s) then
      SayStep(w, chatId, PolicyError);
      Outcome(Say(w, chatId, PolicyError), s, false)
    else if !env.policySent then
      SayStep(w, chatId, ErrorOccurred);
      Outcome(Say(w, chatId, ErrorOccurred), s, false)
    else
      var w1 := w.(outbox := w.outbox + [Telegram.SendDocument(chatId)]);
      var s1 := s.(state := Completed);
      var w2 := Persisted(w1, s1);
      var w3 := Say(w2, chatId, PolicyIssued);
      assert w3.outbox[|w.outbox|..] == [Telegram.SendDocument(chatId), Telegram.Send(chatId, Plain(PolicyIssued), BotKeyboards.NoMarkup)];
      assert Repository.KeysMatch(w.store) ==> Repository.KeysMatch(w2.store) by {
        if Repository.KeysMatch(w.store) {
          Repository.UpdateKeepsKeysMatch(w.store, s1);
        }
      }
      Outcome(w3, s1, false)
  }

  /** `HandlePriceConfirmationCallbacks`. */
  function PriceConfirmationCallbacks(env: Env, w: World<Body>, data: Option<string>, chatId: int, s: Session): (o: Outcome<Body>)
    ensures !o.fault
    ensures var a := Callbacks.Decode(data);
      && (a == Callbacks.AgreePrice ==>
            && o.session == s.(state := if Complete(s) && env.policySent then Completed else GeneratingPolicy)
            && o.world.store == Repository.Updated(w.store, o.session))
      && (a == Callbacks.DeclinePrice ==>
            && o.session == s.(state := AwaitingPriceConfirmation)
            && o.world.store == Repository.Updated(w.store, o.session))
      && (PriceTable(a).None? ==> o == Outcome(Say(w, chatId, InvalidAction), s, false))
    ensures s.chatId == chatId ==> Step(w, o.world, {chatId})
  {
    match Callbacks.Decode(data)
    case AgreePrice =>
      var s1 := s.(state := GeneratingPolicy);
      var w1 := Persisted(w, s1);
      PersistedStep(w, s1);
      var o := PolicyGenerated(env, w1, chatId, s1);
      assert s.chatId == chatId ==> Step(w, o.world, {chatId}) by {
        if s.chatId == chatId {
          StepTrans(w, w1, o.world, {s.chatId}, {s.chatId});
        }
      }
      Repository.UpdateSuperseded(w.store, s1, o.session);
      o
    case DeclinePrice =>
      var s1 := s.(state := AwaitingPriceConfirmation);
      var w1 := Persisted(w, s1);
      PersistedStep(w, s1);
      SentStep(w1, chatId, Plain(NoOtherPrices), BotKeyboards.DeclinedPriceOfferKeyboard);
      var w2 := Sent(w1, chatId, Plain(NoOtherPrices), BotKeyboards.DeclinedPriceOfferKeyboard);
      StepTrans(w, w1, w2, {s.chatId}, {});
      Outcome(w2, s1, false)
    case _ =>
      SayStep(w, chatId, InvalidAction);
      Outcome(Say(w, chatId, InvalidAction), s, false)
  }

  // ---------------------------------------------------------------------
  // Dispatch

  /** `HandleMessageUpdateAsync` after the `/start` check: the two
      manual-entry states take the text (a missing one throws), a completed
      session is told so, and otherwise a photo goes to the photo dispatch
      and anything else is not understood. */
  function MessageUpdate(env: Env, w: World<Body>, m: Telegram.Message, s: Session): (o: Outcome<Body>)
    ensures s.chatId == m.chatId ==> Step(w, o.world, {m.chatId})
  {
    var chatId := m.chatId;
    match s.state
    case EnteringPassportData =>
      if m.text.None? then Outcome(w, s, true) else ManualPassportText(w, chatId, m.text.value, s)
    case EnteringVehicleData =>
      if m.text.None? then Outcome(w, s, true) else ManualVehicleText(w, chatId, m.text.value, s)
    case Completed =>
      SayStep(w, chatId, AlreadyIssued);
      Outcome(Say(w, chatId, AlreadyIssued), s, false)
    case _ =>
      if Telegram.HasPhoto(m) then PhotoMessage(env, w, chatId, m.photo.value, s)
      else
        SayStep(w, chatId, UnrecognizedMessage);
        Outcome(Say(w, chatId, UnrecognizedMessage), s, false)
  }

  /** `HandleCallbackDataAsync`: an empty payload is an unrecognised
      command, `restart` starts over in any state, and otherwise the press
      is dispatched on the session's state. */
  function CallbackData(env: Env, w: World<Body>, data: Option<string>, chatId: int, s: Session): (o: Outcome<Body>)
    ensures s.chatId == chatId ==> Step(w, o.world, {chatId})
  {
    if Telegram.IsNullOrEmpty(data) then
      SayStep(w, chatId, UnrecognizedCommand);
      Outcome(Say(w, chatId, UnrecognizedCommand), s, false)
    else if Callbacks.Decode(data) == Callbacks.Restart then
      Outcome(Start(w, chatId), s, false)
    else if s.state == ConfirmingPassport then PassportConfirmationCallbacks(w, data, chatId, s)
    else if VehicleButtonsState(s.state) then VehicleConfirmationCallbacks(w, data, chatId, s)
    else if s.state == AwaitingPriceConfirmation then PriceConfirmationCallbacks(env, w, data, chatId, s)
    else if s.state == Completed then
      SayStep(w, chatId, AlreadyIssued);
      Outcome(Say(w, chatId, AlreadyIssued), s, false)
    else
      SayStep(w, chatId, NoLongerAvailable);
      Outcome(Say(w, chatId, NoLongerAvailable), s, false)
  }

  /** `HandleUpdateAsync`: a message is checked for `/start` and otherwise
      dispatched, an exception being answered with the error reply; a button
      press on a message of a chat is handled and then acknowledged, an
      exception being answered with the error reply and no
      acknowledgement; other updates are ignored. */
  function Handled(env: Env, w: World<Body>, u: Telegram.Update): (w': World<Body>)
    ensures Repository.KeysMatch(w.store) ==> Step(w, w', {Telegram.ChatIdOf(u)})
  {
    match u
    case OtherUpdate => w
    case MessageUpdate(m) =>
      if Telegram.IsStartCommand(m.text) then Start(w, m.chatId)
      else
        var s := SessionFor(w.store, m.chatId);
        var o := MessageUpdate(env, w, m, s);
        if o.fault then
          var w' := Say(o.world, m.chatId, ErrorOccurred);
          assert Repository.KeysMatch(w.store) ==> Step(w, w', {m.chatId}) by {
            if Repository.KeysMatch(w.store) {
              SayStep(o.world, m.chatId, ErrorOccurred);
              StepTrans(w, o.world, w', {m.chatId}, {});
            }
          }
          w'
        else o.world
    case CallbackQueryUpdate(q) =>
      if q.chat.None? then w
      else
        var c := q.chat.value;
        var o := CallbackData(env, w, q.data, c, SessionFor(w.store, c));
        var w' := if o.fault then Say(o.world, c, ErrorOccurred) else Answered(o.world);
        assert Repository.KeysMatch(w.store) ==> Step(w, w', {c}) by {
          if Repository.KeysMatch(w.store) {
            SayStep(o.world, c, ErrorOccurred);
            AnsweredStep(o.world);
            StepTrans(w, o.world, w', {c}, {});
          }
        }
        w'
  }

  // ---------------------------------------------------------------------
  // Properties of whole updates

  /** How `HandleUpdateAsync` treats a message that is not `/start`. */
  lemma HandleMessage(env: Env, w: World<Body>, m: Telegram.Message)
    requires !Telegram.IsStartCommand(m.text)
    ensures var o := MessageUpdate(env, w, m, SessionFor(w.store, m.chatId));
      Handled(env, w, Telegram.MessageUpdate(m)) == if o.fault then Say(o.world, m.chatId, ErrorOccurred) else o.world
  {
  }

  /** How `HandleUpdateAsync` treats a button press on a message of a chat. */
  lemma HandleCallback(env: Env, w: World<Body>, q: Telegram.CallbackQuery)
    requires q.chat.Some?
    ensures var c := q.chat.value;
      var o := CallbackData(env, w, q.data, c, SessionFor(w.store, c));
      Handled(env, w, Telegram.CallbackQueryUpdate(q)) == if o.fault then Say(o.world, c, ErrorOccurred) else Answered(o.world)
  {
  }

  /** `/start`, in any state, leaves a fresh session awaiting the passport
      and exactly the greeting; other chats are untouched. */
  lemma StartResets(env: Env, w: World<Body>, m: Telegram.Message)
    requires Telegram.IsStartCommand(m.text)
    ensures var c, w' := m.chatId, Handled(env, w, Telegram.MessageUpdate(m));
      && Repository.Lookup(w'.store, c) == Some(NewSession(c, AwaitingPassport))
      && w'.outbox == w.outbox + [Telegram.Send(c, Plain(Greeting), BotKeyboards.NoMarkup)]
      && (forall k :: k != c ==> Repository.Lookup(w'.store, k) == Repository.Lookup(w.store, k))
  {
  }

  /** The `restart` button starts over in every state, and is then
      acknowledged. */
  lemma RestartCallbackResets(env: Env, w: World<Body>, q: Telegram.CallbackQuery)
    requires q.chat.Some? && Callbacks.Decode(q.data) == Callbacks.Restart
    ensures var c, w' := q.chat.value, Handled(env, w, Telegram.CallbackQueryUpdate(q));
      && w'.store == w.store[c := NewSession(c, AwaitingPassport)]
      && w'.outbox == w.outbox + [Telegram.Send(c, Plain(Greeting), BotKeyboards.NoMarkup), Telegram.AnswerCallbackQuery]
  {
    HandleCallback(env, w, q);
  }

  /** A button press with no payload is an unrecognised command in every
      state and changes nothing; an update that is neither a message nor a
      press on a message of a chat is ignored. */
  lemma EmptyCallbackIgnored(env: Env, w: World<Body>, q: Telegram.CallbackQuery)
    requires q.chat.Some? && Telegram.IsNullOrEmpty(q.data)
    ensures Handled(env, w, Telegram.CallbackQueryUpdate(q)) ==
      w.(outbox := w.outbox + [Telegram.Send(q.chat.value, Plain(UnrecognizedCommand), BotKeyboards.NoMarkup), Telegram.AnswerCallbackQuery])
  {
    HandleCallback(env, w, q);
  }

  lemma UnaddressedIgnored(env: Env, w: World<Body>, u: Telegram.Update)
    requires u.OtherUpdate? || (u.CallbackQueryUpdate? && u.query.chat.None?)
    ensures Handled(env, w, u) == w
  {
  }

  /** A session is completed only by an update that sends its chat the
      policy document. */
  lemma CompletedOnlyAfterIssuance(env: Env, w: World<Body>, u: Telegram.Update, k: int)
    requires Repository.KeysMatch(w.store)
    requires StateOf(w.store, k) != Some(Completed)
    requires StateOf(Handled(env, w, u).store, k) == Some(Completed)
    ensures Telegram.SendDocument(k) in Handled(env, w, u).outbox[|w.outbox|..]
  {
    var w' := Handled(env, w, u);
    assert k in Completions(w'.store) - Completions(w.store);
    Telegram.DocumentChatsMember(w'.outbox[|w.outbox|..], k);
  }

  /** Once completed, every message other than `/start` and every button
      press other than `restart` or an empty one is answered "already
      issued" and changes nothing. */
  lemma CompletedAnswersAlreadyIssued(env: Env, w: World<Body>, u: Telegram.Update)
    requires u.MessageUpdate? ==> !Telegram.IsStartCommand(u.message.text)
    requires u.CallbackQueryUpdate? ==>
      u.query.chat.Some? && !Telegram.IsNullOrEmpty(u.query.data) && Callbacks.Decode(u.query.data) != Callbacks.Restart
    requires !u.OtherUpdate?
    requires Repository.KeysMatch(w.store) && StateOf(w.store, Telegram.ChatIdOf(u)) == Some(Completed)
    ensures var c, w' := Telegram.ChatIdOf(u), Handled(env, w, u);
      && w'.store == w.store
      && w'.outbox == w.outbox + [Telegram.Send(c, Plain(AlreadyIssued), BotKeyboards.NoMarkup)]
                              + (if u.CallbackQueryUpdate? then [Telegram.AnswerCallbackQuery] else [])
  {
    if u.CallbackQueryUpdate? {
      HandleCallback(env, w, u.query);
    } else {
      HandleMessage(env, w, u.message);
    }
  }

  /** A photo is read only in the three states that await one; in a state
      that neither awaits one nor takes typed data nor is completed, it is
      refused and nothing else changes. */
  lemma PhotoGate(env: Env, w: World<Body>, m: Telegram.Message)
    requires Repository.KeysMatch(w.store)
    requires Telegram.HasPhoto(m) && !Telegram.IsStartCommand(m.text)
    requires StateOf(w.store, m.chatId) !in {Some(EnteringPassportData), Some(EnteringVehicleData), Some(Completed)}
    ensures var c, w', s := m.chatId, Handled(env, w, Telegram.MessageUpdate(m)), SessionFor(w.store, m.chatId);
      && (!AwaitsPhoto(s.state) ==> w' == Say(w, c, NotExpectingPhoto))
      && (s.state == AwaitingPassport ==> StateOf(w'.store, c) == Some(ConfirmingPassport))
      && (s.state == AwaitingVehicleFront ==> StateOf(w'.store, c) == Some(ConfirmingVehicleDocFront))
      && (s.state == AwaitingVehicleBack ==> StateOf(w'.store, c) == Some(ConfirmingVehicleDocBack))
  {
    HandleMessage(env, w, m);
    var s := SessionFor(w.store, m.chatId);
    assert MessageUpdate(env, w, m, s) == PhotoMessage(env, w, m.chatId, m.photo.value, s);
  }

  /** In a manual-entry state a message without text throws, and is
      answered with the error reply. */
  lemma MissingTextFault(env: Env, w: World<Body>, m: Telegram.Message)
    requires m.text.None?
    requires StateOf(w.store, m.chatId) in {Some(EnteringPassportData), Some(EnteringVehicleData)}
    ensures Handled(env, w, Telegram.MessageUpdate(m)) == Say(w, m.chatId, ErrorOccurred)
  {
    HandleMessage(env, w, m);
  }

  /** A typed passport is stored, with the state ConfirmingPassport, exactly
      when it has five fields and three readable dates; otherwise the store
      stays. */
  lemma ManualPassportUpdate(env: Env, w: World<Body>, m: Telegram.Message)
    requires Repository.KeysMatch(w.store)
    requires StateOf(w.store, m.chatId) == Some(EnteringPassportData)
    requires m.text.Some? && !Telegram.IsStartCommand(m.text)
    ensures var c, w', f := m.chatId, Handled(env, w, Telegram.MessageUpdate(m)), ManualEntry.Fields(m.text.value);
      var p := if |f| == ManualEntry.FieldCount then ManualEntry.PassportFromFields(f) else Option.None;
      && (p.Some? ==> w'.store == w.store[c := w.store[c].(state := ConfirmingPassport, passportData := p)])
      && (p.None? ==> w'.store == w.store)
  {
    ManualPassportDispatch(env, w, m);
    ManualPassportEffect(w, m);
  }

  lemma ManualPassportDispatch(env: Env, w: World<Body>, m: Telegram.Message)
    requires Repository.KeysMatch(w.store)
    requires StateOf(w.store, m.chatId) == Some(EnteringPassportData)
    requires m.text.Some? && !Telegram.IsStartCommand(m.text)
    ensures Handled(env, w, Telegram.MessageUpdate(m)) == ManualPassportText(w, m.chatId, m.text.value, w.store[m.chatId]).world
  {
    var s := w.store[m.chatId];
    assert SessionFor(w.store, m.chatId) == s;
    HandleMessage(env, w, m);
    MessageToManualPassport(env, w, m, s, m.text.value);
  }

  /** What the passport handler does to the stored session. */
  lemma ManualPassportEffect(w: World<Body>, m: Telegram.Message)
    requires Repository.KeysMatch(w.store)
    requires StateOf(w.store, m.chatId) == Some(EnteringPassportData)
    requires m.text.Some?
    ensures var c, f := m.chatId, ManualEntry.Fields(m.text.value);
      var w' := ManualPassportText(w, c, m.text.value, w.store[c]).world;
      var p := if |f| == ManualEntry.FieldCount then ManualEntry.PassportFromFields(f) else Option.None;
      && (p.Some? ==> w'.store == w.store[c := w.store[c].(state := ConfirmingPassport, passportData := p)])
      && (p.None? ==> w'.store == w.store)
  {
    var c, f := m.chatId, ManualEntry.Fields(m.text.value);
    if |f| == ManualEntry.FieldCount && ManualEntry.PassportFromFields(f).Some? {
      Repository.UpdateWithChangedRecord(w.store, w.store[c].(state := ConfirmingPassport, passportData := ManualEntry.PassportFromFields(f)));
    }
  }

  /** A typed vehicle is stored wholesale, with the state
      ConformingVehicleDoc, exactly when it has five fields and a year that
      fits `int`; a year beyond `int` is answered with the error reply. */
  lemma ManualVehicleUpdate(env: Env, w: World<Body>, m: Telegram.Message)
    requires Repository.KeysMatch(w.store)
    requires StateOf(w.store, m.chatId) == Some(EnteringVehicleData)
    requires m.text.Some? && !Telegram.IsStartCommand(m.text)
    ensures var c, w', f := m.chatId, Handled(env, w, Telegram.MessageUpdate(m)), ManualEntry.Fields(m.text.value);
      var r := if |f| == ManualEntry.FieldCount then ManualEntry.VehicleFromFields(f) else Err(Numbers.FormatError);
      && (r.Ok? ==> w'.store == w.store[c := w.store[c].(state := ConformingVehicleDoc, vehicleData := Some(r.value))])
      && (r.Err? ==> w'.store == w.store)
      && (r == Err(Numbers.OverflowError) ==> w' == Say(w, c, ErrorOccurred))
  {
    ManualVehicleDispatch(env, w, m);
    ManualVehicleEffect(w, m);
  }

  lemma ManualVehicleDispatch(env: Env, w: World<Body>, m: Telegram.Message)
    requires Repository.KeysMatch(w.store)
    requires StateOf(w.store, m.chatId) == Some(EnteringVehicleData)
    requires m.text.Some? && !Telegram.IsStartCommand(m.text)
    ensures var o := ManualVehicleText(w, m.chatId, m.text.value, w.store[m.chatId]);
      Handled(env, w, Telegram.MessageUpdate(m)) == if o.fault then Say(o.world, m.chatId, ErrorOccurred) else o.world
  {
    var s := w.store[m.chatId];
    assert SessionFor(w.store, m.chatId) == s;
    HandleMessage(env, w, m);
    MessageToManualVehicle(env, w, m, s);
  }

  /** What the vehicle handler and, on a fault, the `catch` do together. */
  lemma ManualVehicleEffect(w: World<Body>, m: Telegram.Message)
    requires Repository.KeysMatch(w.store)
    requires StateOf(w.store, m.chatId) == Some(EnteringVehicleData)
    requires m.text.Some?
    ensures var c, f := m.chatId, ManualEntry.Fields(m.text.value);
      var o := ManualVehicleText(w, c, m.text.value, w.store[c]);
      var w' := if o.fault then Say(o.world, c, ErrorOccurred) else o.world;
      var r := if |f| == ManualEntry.FieldCount then ManualEntry.VehicleFromFields(f) else Err(Numbers.FormatError);
      && (r.Ok? ==> w'.store == w.store[c := w.store[c].(state := ConformingVehicleDoc, vehicleData := Some(r.value))])
      && (r.Err? ==> w'.store == w.store)
      && (r == Err(Numbers.OverflowError) ==> w' == Say(w, c, ErrorOccurred))
  {
    var c, f := m.chatId, ManualEntry.Fields(m.text.value);
    if |f| == ManualEntry.FieldCount && ManualEntry.VehicleFromFields(f).Ok? {
      var v := ManualEntry.VehicleFromFields(f).value;
      Repository.UpdateWithChangedRecord(w.store, w.store[c].(state := ConformingVehicleDoc, vehicleData := Some(v)));
    }
  }

  /** An empty text splits into one field, which is not five. */
  lemma EmptyVehicleText(w: World<Body>, chatId: int, s: Session)
    ensures ManualVehicleText(w, chatId, [], s) == Outcome(Say(w, chatId, VehicleFormatError), s, false)
  {
    var f := ManualEntry.Fields([]);
    assert |f| == 1;
  }

  lemma MessageToManualVehicle(env: Env, w: World<Body>, m: Telegram.Message, s: Session)
    requires s.state == EnteringVehicleData
    ensures MessageUpdate(env, w, m, s) == if m.text.None? then Outcome(w, s, true) else ManualVehicleText(w, m.chatId, m.text.value, s)
  {
  }

  lemma MessageToManualPassport(env: Env, w: World<Body>, m: Telegram.Message, s: Session, text: string)
    requires s.state == EnteringPassportData && m.text == Some(text)
    ensures MessageUpdate(env, w, m, s) == ManualPassportText(w, m.chatId, text, s)
  {
  }

  lemma MessageWithoutText(env: Env, w: World<Body>, m: Telegram.Message, s: Session)
    requires (s.state == EnteringPassportData || s.state == EnteringVehicleData) && m.text.None?
    ensures MessageUpdate(env, w, m, s) == Outcome(w, s, true)
  {
  }

  /** What a user types in the documented format is what gets stored. */
  lemma PassportLineAccepted(w: World<Body>, chatId: int, p: PassportData, s: Session)
    requires p.fullName.Some? && ManualEntry.IsField(p.fullName.value)
    requires p.passportNumber.Some? && ManualEntry.IsField(p.passportNumber.value)
    requires Dates.IsValid(p.dateOfBirth) && Dates.IsValid(p.issueDate) && Dates.IsValid(p.expiryDate)
    ensures ManualPassportText(w, chatId, ManualEntry.PassportLine(p), s).session
      == s.(passportData := Some(p), state := ConfirmingPassport)
  {
    ManualEntry.PassportLineRoundTrip(p);
  }

  lemma VehicleLineAccepted(w: World<Body>, chatId: int, v: VehicleData, s: Session)
    requires v.vin.Some? && ManualEntry.IsField(v.vin.value)
    requires v.make.Some? && ManualEntry.IsField(v.make.value)
    requires v.model.Some? && ManualEntry.IsField(v.model.value)
    requires v.year.Some? && Numbers.InInt32(v.year.value)
    requires v.registrationNumber.Some? && ManualEntry.IsField(v.registrationNumber.value)
    ensures ManualVehicleText(w, chatId, ManualEntry.VehicleLine(v), s).session
      == s.(vehicleData := Some(v), state := ConformingVehicleDoc)
  {
    ManualEntry.VehicleLineRoundTrip(v);
  }

  /** A passport photo stores ConfirmingPassport whatever extraction does,
      and replaces the passport only with an extracted one. */
  lemma PassportPhotoUpdate(env: Env, w: World<Body>, m: Telegram.Message)
    requires Repository.KeysMatch(w.store)
    requires StateOf(w.store, m.chatId) == Some(AwaitingPassport)
    requires Telegram.HasPhoto(m) && !Telegram.IsStartCommand(m.text)
    ensures var c, w', r := m.chatId, Handled(env, w, Telegram.MessageUpdate(m)), env.extractPassport(m.photo.value);
      w'.store == w.store[c := w.store[c].(state := ConfirmingPassport,
                                           passportData := if r.Some? then r else w.store[c].passportData)]
  {
    HandleMessage(env, w, m);
    assert SessionFor(w.store, m.chatId) == w.store[m.chatId];
  }

  /** The front side stores ConfirmingVehicleDocFront; when read, its two
      fields enter the vehicle record and the other three are kept. */
  lemma FrontPhotoUpdate(env: Env, w: World<Body>, m: Telegram.Message)
    requires Repository.KeysMatch(w.store)
    requires StateOf(w.store, m.chatId) == Some(AwaitingVehicleFront)
    requires Telegram.HasPhoto(m) && !Telegram.IsStartCommand(m.text)
    ensures var c, w', r := m.chatId, Handled(env, w, Telegram.MessageUpdate(m)), env.extractFront(m.photo.value);
      && StateOf(w'.store, c) == Some(ConfirmingVehicleDocFront)
      && (r.None? ==> w'.store[c].vehicleData == w.store[c].vehicleData)
      && (r.Some? ==>
            var v, v' := w.store[c].vehicleData, w'.store[c].vehicleData.value;
            && v' == WithFront(v, r.value)
            && (v.Some? ==> v'.vin == v.value.vin && v'.make == v.value.make && v'.model == v.value.model))
  {
    HandleMessage(env, w, m);
    assert SessionFor(w.store, m.chatId) == w.store[m.chatId];
  }

  /** The back side stores ConfirmingVehicleDocBack; when read, its three
      fields enter the vehicle record and the other two are kept. */
  lemma BackPhotoUpdate(env: Env, w: World<Body>, m: Telegram.Message)
    requires Repository.KeysMatch(w.store)
    requires StateOf(w.store, m.chatId) == Some(AwaitingVehicleBack)
    requires Telegram.HasPhoto(m) && !Telegram.IsStartCommand(m.text)
    ensures var c, w', r := m.chatId, Handled(env, w, Telegram.MessageUpdate(m)), env.extractBack(m.photo.value);
      && StateOf(w'.store, c) == Some(ConfirmingVehicleDocBack)
      && (r.None? ==> w'.store[c].vehicleData == w.store[c].vehicleData)
      && (r.Some? ==>
            var v, v' := w.store[c].vehicleData, w'.store[c].vehicleData.value;
            && v' == WithBack(v, r.value)
            && (v.Some? ==> v'.registrationNumber == v.value.registrationNumber && v'.year == v.value.year))
  {
    HandleMessage(env, w, m);
    assert SessionFor(w.store, m.chatId) == w.store[m.chatId];
  }

  /** In the confirmation states, and for the vehicle buttons also while a
      vehicle photo is awaited, a button press stores the state the table
      names; any other press is answered as invalid, acknowledged, and
      changes nothing. */
  lemma ConfirmationCallbackUpdate(env: Env, w: World<Body>, q: Telegram.CallbackQuery)
    requires q.chat.Some? && Repository.KeysMatch(w.store)
    requires !Telegram.IsNullOrEmpty(q.data) && Callbacks.Decode(q.data) != Callbacks.Restart
    requires StateOf(w.store, q.chat.value) == Some(ConfirmingPassport)
      || (q.chat.value in w.store && VehicleButtonsState(w.store[q.chat.value].state))
    ensures var c, w' := q.chat.value, Handled(env, w, Telegram.CallbackQueryUpdate(q));
      var t := CallbackTarget(w.store[c].state, Callbacks.Decode(q.data));
      && (t.Some? ==> w'.store == w.store[c := w.store[c].(state := t.value)])
      && (t.None? ==> w' == w.(outbox := w.outbox + [Telegram.Send(c, Plain(InvalidAction), BotKeyboards.NoMarkup),
                                                    Telegram.AnswerCallbackQuery]))
  {
    HandleCallback(env, w, q);
    assert SessionFor(w.store, q.chat.value) == w.store[q.chat.value];
  }

  /** In AwaitingPriceConfirmation `agreePrice` completes the session exactly
      when both records are present and the document was delivered
      (otherwise it stays in GeneratingPolicy), `declinePrice` keeps the
      offer open, and any other payload but `restart` changes nothing. */
  lemma PriceCallbackUpdate(env: Env, w: World<Body>, q: Telegram.CallbackQuery)
    requires q.chat.Some? && Repository.KeysMatch(w.store)
    requires StateOf(w.store, q.chat.value) == Some(AwaitingPriceConfirmation)
    ensures var c, w', a := q.chat.value, Handled(env, w, Telegram.CallbackQueryUpdate(q)), Callbacks.Decode(q.data);
      && (a == Callbacks.AgreePrice ==>
            StateOf(w'.store, c) == Some(if Complete(w.store[c]) && env.policySent then Completed else GeneratingPolicy))
      && (a == Callbacks.DeclinePrice ==> w'.store == w.store)
      && (PriceTable(a).None? && a != Callbacks.Restart ==> w'.store == w.store)
  {
    HandleCallback(env, w, q);
    assert SessionFor(w.store, q.chat.value) == w.store[q.chat.value];
  }

  /** Confirming the read vehicle document stores AwaitingPriceConfirmation
      and sends the price offer with its buttons; the press is answered
      last. */
  lemma VehicleDocConfirmedOffersPrice(env: Env, w: World<Body>, q: Telegram.CallbackQuery)
    requires q.chat.Some? && Repository.KeysMatch(w.store)
    requires StateOf(w.store, q.chat.value) == Some(ConformingVehicleDoc)
    requires Callbacks.Decode(q.data) == Callbacks.ConfirmVehicleDoc
    ensures var c, w' := q.chat.value, Handled(env, w, Telegram.CallbackQueryUpdate(q));
      && w'.store == w.store[c := w.store[c].(state := AwaitingPriceConfirmation)]
      && w'.outbox == w.outbox + [Telegram.Send(c, Plain(PriceOffer), BotKeyboards.PriceConfirmationKeyboard),
           Telegram.AnswerCallbackQuery]
  {
    HandleCallback(env, w, q);
    assert SessionFor(w.store, q.chat.value) == w.store[q.chat.value];
  }

  /** Declining the offer keeps AwaitingPriceConfirmation and sends the
      "no other prices" message with its buttons; the press is answered
      last. */
  lemma PriceDeclinedReply(env: Env, w: World<Body>, q: Telegram.CallbackQuery)
    requires q.chat.Some? && Repository.KeysMatch(w.store)
    requires StateOf(w.store, q.chat.value) == Some(AwaitingPriceConfirmation)
    requires Callbacks.Decode(q.data) == Callbacks.DeclinePrice
    ensures var c, w' := q.chat.value, Handled(env, w, Telegram.CallbackQueryUpdate(q));
      && w' == w.(outbox := w.outbox + [Telegram.Send(c, Plain(NoOtherPrices), BotKeyboards.DeclinedPriceOfferKeyboard),
           Telegram.AnswerCallbackQuery])
  {
    HandleCallback(env, w, q);
    assert SessionFor(w.store, q.chat.value) == w.store[q.chat.value];
  }

  /** No button completes a session, only `agreePrice` starts issuance, and
      the vehicle buttons act in exactly the five vehicle states. */
  lemma CallbackTargets(state: ConversationState, a: Callbacks.Action)
    ensures CallbackTarget(state, a) != Some(Completed)
    ensures CallbackTarget(state, a) == Some(GeneratingPolicy) <==> state == AwaitingPriceConfirmation && a == Callbacks.AgreePrice
    ensures CallbackTarget(state, Callbacks.ConfirmVehicleDoc).Some? <==> VehicleButtonsState(state)
  {
  }

  // ---------------------------------------------------------------------
  // The handler object

  /** The handler: the session repository it shares with the rest of the
      process and the replies it has sent. Each method is proved to do what
      the function of the same step above describes. */
  class BotUpdateHandler {
    const repository: Repository.UserSessionRepositoryInMemory<ConversationState>
    var outbox: seq<Telegram.Reply<Body>>

    constructor(repository: Repository.UserSessionRepositoryInMemory<ConversationState>)
      ensures this.repository == repository && outbox == []
    {
      this.repository := repository;
      outbox := [];
    }

    function Snapshot(): World<Body>
      reads this, repository
    {
      World(repository.sessions, outbox)
    }

    method Send(chatId: int, body: Body, markup: BotKeyboards.Markup)
      modifies this
      ensures Snapshot() == Sent(old(Snapshot()), chatId, body, markup)
    {
      outbox := outbox + [Telegram.Send(chatId, body, markup)];
    }

    method SendText(chatId: int, p: Phrase)
      modifies this
      ensures Snapshot() == Say(old(Snapshot()), chatId, p)
    {
      Send(chatId, Plain(p), BotKeyboards.NoMarkup);
    }

    method GetOrCreateSession(chatId: int) returns (s: Session)
      ensures s == SessionFor(repository.sessions, chatId)
    {
      var stored := repository.Get(chatId);
      if stored.Some? {
        s := stored.value;
      } else {
        s := NewSession(chatId, ConversationState.None);
      }
    }

    method HandleStartCommand(chatId: int)
      modifies this, repository
      ensures Snapshot() == Start(old(Snapshot()), chatId)
    {
      var found := repository.Delete(chatId);
      var added := repository.Add(NewSession(chatId, AwaitingPassport));
      SendText(chatId, Greeting);
    }

    method RequestPriceConfirmation(chatId: int)
      modifies this
      ensures Snapshot() == PriceRequested(old(Snapshot()), chatId)
    {
      Send(chatId, Plain(PriceOffer), BotKeyboards.PriceConfirmationKeyboard);
    }

    method HandleManualPassportText(chatId: int, text: string, session: Session) returns (s: Session, fault: bool)
      modifies this, repository
      ensures Outcome(Snapshot(), s, fault) == ManualPassportText(old(Snapshot()), chatId, text, session)
    {
      s, fault := session, false;
      var parts := ManualEntry.Fields(text);
      if |parts| != ManualEntry.FieldCount {
        SendText(chatId, PassportFormatError);
        return;
      }
      var passport := ManualEntry.PassportFromFields(parts);
      if passport.None? {
        SendText(chatId, PassportDateError);
        return;
      }
      s := s.(passportData := passport, state := ConfirmingPassport);
      repository.Update(s);
      Send(chatId, PassportEntered(passport.value), BotKeyboards.PassportConfirmationKeyboard);
    }

    method HandleManualVehicleText(chatId: int, text: string, session: Session) returns (s: Session, fault: bool)
      modifies this, repository
      ensures Outcome(Snapshot(), s, fault) == ManualVehicleText(old(Snapshot()), chatId, text, session)
    {
      s, fault := session, false;
      var parts := ManualEntry.Fields(text);
      if |parts| != ManualEntry.FieldCount {
        SendText(chatId, VehicleFormatError);
        return;
      }
      var vehicle := ManualEntry.VehicleFromFields(parts);
      if vehicle == Err(Numbers.OverflowError) {
        fault := true;
        return;
      }
      if vehicle.Err? {
        SendText(chatId, VehicleYearError);
        return;
      }
      s := s.(vehicleData := Some(vehicle.value), state := ConformingVehicleDoc);
      repository.Update(s);
      Send(chatId, VehicleEntered(vehicle.value), BotKeyboards.VehicleDocConfirmationKeyboard);
    }

    method HandlePassportPhoto(env: Env, chatId: int, photo: Telegram.Bytes, session: Session) returns (s: Session, fault: bool)
      modifies this, repository
      ensures Outcome(Snapshot(), s, fault) == PassportPhoto(env, old(Snapshot()), chatId, photo, session)
    {
      s, fault := session.(state := ConfirmingPassport), false;
      repository.Update(s);
      var passport := env.extractPassport(photo);
      if passport.None? {
        Send(chatId, Plain(PassportExtractionFailed), BotKeyboards.PassportExtractionFailedKeyboard);
        return;
      }
      s := s.(passportData := passport);
      repository.Update(s);
      Send(chatId, PassportExtracted(passport.value), PassportExtractedKeyboard);
    }

    method HandleVehicleFrontPhoto(env: Env, chatId: int, photo: Telegram.Bytes, session: Session) returns (s: Session, fault: bool)
      modifies this, repository
      ensures Outcome(Snapshot(), s, fault) == VehicleFrontPhoto(env, old(Snapshot()), chatId, photo, session)
    {
      s, fault := session.(state := ConfirmingVehicleDocFront), false;
      repository.Update(s);
      var front := env.extractFront(photo);
      if front.None? {
        Send(chatId, Plain(VehicleExtractionFailed), BotKeyboards.VehicleFrontExtractionFailedKeyboard);
        return;
      }
      s := s.(vehicleData := Some(WithFront(s.vehicleData, front.value)));
      repository.Update(s);
      Send(chatId, FrontExtracted(front.value.registrationNumber, front.value.year), FrontExtractedKeyboard);
    }

    method HandleVehicleBackPhoto(env: Env, chatId: int, photo: Telegram.Bytes, session: Session) returns (s: Session, fault: bool)
      modifies this, repository
      ensures Outcome(Snapshot(), s, fault) == VehicleBackPhoto(env, old(Snapshot()), chatId, photo, session)
    {
      s, fault := session.(state := ConfirmingVehicleDocBack), false;
      repository.Update(s);
      var back := env.extractBack(photo);
      if back.None? {
        Send(chatId, Plain(VehicleExtractionFailed), BotKeyboards.VehicleBackExtractionFailedKeyboard);
        return;
      }
      s := s.(vehicleData := Some(WithBack(s.vehicleData, back.value)));
      repository.Update(s);
      Send(chatId, BackExtracted(back.value.vin, back.value.model, back.value.make), BackExtractedKeyboard);
    }

    method HandlePhotoMessage(env: Env, chatId: int, photo: Telegram.Bytes, session: Session) returns (s: Session, fault: bool)
      modifies this, repository
      ensures Outcome(Snapshot(), s, fault) == PhotoMessage(env, old(Snapshot()), chatId, photo, session)
    {
      s, fault := session, false;
      match s.state
      case AwaitingPassport =>
        s, fault := HandlePassportPhoto(env, chatId, photo, s);
      case AwaitingVehicleFront =>
        s, fault := HandleVehicleFrontPhoto(env, chatId, photo, s);
      case AwaitingVehicleBack =>
        s, fault := HandleVehicleBackPhoto(env, chatId, photo, s);
      case _ =>
        SendText(chatId, NotExpectingPhoto);
    }

    method HandlePassportConfirmationCallbacks(data: Option<string>, chatId: int, session: Session) returns (s: Session, fault: bool)
      modifies this, repository
      ensures Outcome(Snapshot(), s, fault) == PassportConfirmationCallbacks(old(Snapshot()), data, chatId, session)
    {
      s, fault := session, false;
      match Callbacks.Decode(data)
      case RetryPassport =>
        s := s.(state := AwaitingPassport);
        repository.Update(s);
        SendText(chatId, RetryPassportPrompt);
      case ManualPassport =>
        s := s.(state := EnteringPassportData);
        repository.Update(s);
        SendText(chatId, ManualPassportPrompt);
      case ConfirmPassport =>
        s := s.(state := AwaitingVehicleFront);
        repository.Update(s);
        SendText(chatId, PassportConfirmed);
      case _ =>
        SendText(chatId, InvalidAction);
    }

    method HandleVehicleConfirmationCallbacks(data: Option<string>, chatId: int, session: Session) returns (s: Session, fault: bool)
      modifies this, repository
      ensures Outcome(Snapshot(), s, fault) == VehicleConfirmationCallbacks(old(Snapshot()), data, chatId, session)
    {
      s, fault := session, false;
      match Callbacks.Decode(data)
      case RetryVehicleFront =>
        s := s.(state := AwaitingVehicleFront);
        repository.Update(s);
        SendText(chatId, RetryFrontPrompt);
      case ConfirmVehicleFront =>
        s := s.(state := AwaitingVehicleBack);
        repository.Update(s);
        SendText(chatId, FrontConfirmed);
      case RetryVehicleBack =>
        s := s.(state := AwaitingVehicleBack);
        repository.Update(s);
        SendText(chatId, RetryBackPrompt);
      case ConfirmVehicleBack =>
        s := s.(state := ConformingVehicleDoc);
        repository.Update(s);
        fault := RequestVehicleDocConfirmation(chatId, s);
      case ConfirmVehicleDoc =>
        s := s.(state := AwaitingPriceConfirmation);
        repository.Update(s);
        RequestPriceConfirmation(chatId);
      case ManualVehicle =>
        s := s.(state := EnteringVehicleData);
        repository.Update(s);
        SendText(chatId, ManualVehiclePrompt);
      case _ =>
        SendText(chatId, InvalidAction);
    }

    /** `RequestVehicleDocConfirmationAsync`: rendering the summary of a
        missing vehicle record throws. */
    method RequestVehicleDocConfirmation(chatId: int, session: Session) returns (fault: bool)
      modifies this
      ensures fault <==> session.vehicleData.None?
      ensures fault ==> Snapshot() == old(Snapshot())
      ensures !fault ==> Snapshot() == Sent(old(Snapshot()), chatId, VehicleSummary(session.vehicleData.value), VehicleSummaryKeyboard)
    {
      if session.vehicleData.None? {
        return true;
      }
      Send(chatId, VehicleSummary(session.vehicleData.value), VehicleSummaryKeyboard);
      return false;
    }

    method GenerateAndSendPolicy(env: Env, chatId: int, session: Session) returns (s: Session)
      modifies this, repository
      ensures Outcome(Snapshot(), s, false) == PolicyGenerated(env, old(Snapshot()), chatId, session)
    {
      s := session;
      if s.passportData.None? || s.vehicleData.None? {
        SendText(chatId, PolicyError);
        return;
      }
      if !env.policySent {
        SendText(chatId, ErrorOccurred);
        return;
      }
      outbox := outbox + [Telegram.SendDocument(chatId)];
      s := s.(state := Completed);
      repository.Update(s);
      SendText(chatId, PolicyIssued);
    }

    method HandlePriceConfirmationCallbacks(env: Env, data: Option<string>, chatId: int, session: Session) returns (s: Session, fault: bool)
      modifies this, repository
      ensures Outcome(Snapshot(), s, fault) == PriceConfirmationCallbacks(env, old(Snapshot()), data, chatId, session)
    {
      s, fault := session, false;
      match Callbacks.Decode(data)
      case AgreePrice =>
        s := s.(state := GeneratingPolicy);
        repository.Update(s);
        s := GenerateAndSendPolicy(env, chatId, s);
      case DeclinePrice =>
        s := s.(state := AwaitingPriceConfirmation);
        repository.Update(s);
        Send(chatId, Plain(NoOtherPrices), BotKeyboards.DeclinedPriceOfferKeyboard);
      case _ =>
        SendText(chatId, InvalidAction);
    }

    method HandleCallbackData(env: Env, data: Option<string>, chatId: int, session: Session) returns (s: Session, fault: bool)
      modifies this, repository
      ensures Outcome(Snapshot(), s, fault) == CallbackData(env, old(Snapshot()), data, chatId, session)
    {
      s, fault := session, false;
      if Telegram.IsNullOrEmpty(data) {
        SendText(chatId, UnrecognizedCommand);
        return;
      }
      if Callbacks.Decode(data) == Callbacks.Restart {
        HandleStartCommand(chatId);
        return;
      }
      if s.state == ConfirmingPassport {
        s, fault := HandlePassportConfirmationCallbacks(data, chatId, s);
      } else if VehicleButtonsState(s.state) {
        s, fault := HandleVehicleConfirmationCallbacks(data, chatId, s);
      } else if s.state == AwaitingPriceConfirmation {
        s, fault := HandlePriceConfirmationCallbacks(env, data, chatId, s);
      } else if s.state == Completed {
        SendText(chatId, AlreadyIssued);
      } else {
        SendText(chatId, NoLongerAvailable);
      }
    }

    /** `HandleMessageUpdateAsync`. */
    method HandleMessageUpdate(env: Env, m: Telegram.Message)
      modifies this, repository
      ensures Snapshot() == Handled(env, old(Snapshot()), Telegram.MessageUpdate(m))
    {
      var chatId := m.chatId;
      if Telegram.IsStartCommand(m.text) {
        HandleStartCommand(chatId);
        return;
      }
      HandleMessage(env, Snapshot(), m);
      var session := GetOrCreateSession(chatId);
      var fault := false;
      match session.state {
        case EnteringPassportData =>
          if m.text.None? {
            MessageWithoutText(env, old(Snapshot()), m, session);
            fault := true;
          } else {
            session, fault := HandleManualPassportText(chatId, m.text.value, session);
          }
        case EnteringVehicleData =>
          if m.text.None? {
            MessageWithoutText(env, old(Snapshot()), m, session);
            fault := true;
          } else {
            session, fault := HandleManualVehicleText(chatId, m.text.value, session);
          }
        case Completed =>
          SendText(chatId, AlreadyIssued);
        case _ =>
          if Telegram.HasPhoto(m) {
            session, fault := HandlePhotoMessage(env, chatId, m.photo.value, session);
          } else {
            SendText(chatId, UnrecognizedMessage);
          }
      }
      if fault {
        SendText(chatId, ErrorOccurred);
      }
    }

    /** `HandleCallbackQueryUpdateAsync`. */
    method HandleCallbackQueryUpdate(env: Env, q: Telegram.CallbackQuery)
      modifies this, repository
      ensures Snapshot() == Handled(env, old(Snapshot()), Telegram.CallbackQueryUpdate(q))
    {
      if q.chat.None? {
        return;
      }
      var chatId := q.chat.value;
      var session := GetOrCreateSession(chatId);
      var fault;
      session, fault := HandleCallbackData(env, q.data, chatId, session);
      if fault {
        SendText(chatId, ErrorOccurred);
      } else {
        outbox := outbox + [Telegram.AnswerCallbackQuery];
      }
    }

    /** `HandleUpdateAsync`. */
    method HandleUpdate(env: Env, u: Telegram.Update)
      modifies this, repository
      ensures Snapshot() == Handled(env, old(Snapshot()), u)
    {
      match u
      case MessageUpdate(m) =>
        HandleMessageUpdate(env, m);
      case CallbackQueryUpdate(q) =>
        HandleCallbackQueryUpdate(env, q);
      case OtherUpdate =>
    }
  }
}
