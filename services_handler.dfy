/** The intermediate revision of the update handler kept under
    `Services/`: the passport, then the front and the back of the vehicle
    registration document read separately and merged into one vehicle
    record, a price offer and the policy. Manual entry checks the format
    only. As for the newest revision, each step is stated as a function on
    the world and carried out by a method of `BotUpdateHandler`. */
module ServicesHandler {
  import opened Wrappers
  import opened Models
  import opened Conversation
  import BotKeyboards
  import Telegram
  import ManualEntry
  import Numbers
  import Dates
  import Repository
  import Callbacks

  /** The fixed texts this revision sends, by their names in its message
      table; their wording is not modelled. */
  datatype BotMessage =
    | StartMessage | ErrorOccurred | UnrecognizedMessage | PolicyAlreadyIssued
    | InvalidActionContext | MissingPolicyDataError | DeclinedPriceOffer
    | AwaitingPassportPhoto | ManualPassportDataPrompt | PassportDataFormatError
    | PassportDateParseError | PassportExtractionFailed | PassportConfirmedPromptVehicleFront
    | AwaitingVehicleFrontPhoto | VehicleFrontPhotoExtractionFailed
    | VehicleFrontConfirmedPromptVehicleBack | AwaitingVehicleBackPhoto
    | VehicleBackPhotoExtractionFailed | ManualVehicleDataPrompt
    | ManualVehicleDataFormatError | VehicleYearParseError

  /** A reply's text: a fixed one, or one of the texts that render what was
      read or entered. */
  datatype Body =
    | Plain(message: BotMessage)
    | PassportDataExtracted(passport: PassportData)
    | PassportDataConfirmationPrompt(passport: PassportData)
    | VehicleFrontDataExtracted(registrationNumber: string, year: int)
    | VehicleBackDataExtracted(vin: string, model: string, make: string)
    | VehicleDataConfirmationPrompt(vehicle: VehicleData)
    | PriceConfirmationPrompt(price: int)
    | PolicyGenerationSuccess

  function Say(w: World<Body>, chatId: int, m: BotMessage): World<Body> {
    Sent(w, chatId, Plain(m), BotKeyboards.NoMarkup)
  }

  lemma SayStep(w: World<Body>, chatId: int, m: BotMessage)
    ensures Step(w, Say(w, chatId, m), {})
  {
    SentStep(w, chatId, Plain(m), BotKeyboards.NoMarkup);
  }

  /** `HandleStartCommandAsync`. */
  function Start(w: World<Body>, chatId: int): World<Body> {
    Restarted(w, chatId, Plain(StartMessage))
  }

  /** `RequestPriceConfirmationAsync`: the price of 100 with the accept and
      decline buttons. */
  function PriceRequested(w: World<Body>, chatId: int): World<Body> {
    Sent(w, chatId, PriceConfirmationPrompt(100), BotKeyboards.PriceConfirmationKeyboard)
  }

  // ---------------------------------------------------------------------
  // Manual entry

  /** `HandleManualPassportTextAsync`: five fields and three dates that read
      as dd.MM.yyyy; no range or order check. */
  function ManualPassportText(w: World<Body>, chatId: int, text: string, s: Session): (o: Outcome<Body>)
    ensures !o.fault
    ensures var f := ManualEntry.Fields(text);
      && (|f| != ManualEntry.FieldCount ==> o == Outcome(Say(w, chatId, PassportDataFormatError), s, false))
      && (|f| == ManualEntry.FieldCount && ManualEntry.PassportFromFields(f).None? ==>
            o == Outcome(Say(w, chatId, PassportDateParseError), s, false))
      && (|f| == ManualEntry.FieldCount && ManualEntry.PassportFromFields(f).Some? ==>
            && o.session == s.(passportData := ManualEntry.PassportFromFields(f), state := ConfirmingPassport)
            && o.world.store == Repository.Updated(w.store, o.session))
    ensures Step(w, o.world, {s.chatId})
  {
    var f := ManualEntry.Fields(text);
    if |f| != ManualEntry.FieldCount then
      SayStep(w, chatId, PassportDataFormatError);
      Outcome(Say(w, chatId, PassportDataFormatError), s, false)
    else match ManualEntry.PassportFromFields(f)
      case None =>
        SayStep(w, chatId, PassportDateParseError);
        Outcome(Say(w, chatId, PassportDateParseError), s, false)
      case Some(p) =>
        var s1 := s.(passportData := Some(p), state := ConfirmingPassport);
        var w1 := Persisted(w, s1);
        PersistedStep(w, s1);
        SentStep(w1, chatId, PassportDataConfirmationPrompt(p), BotKeyboards.PassportConfirmationKeyboard);
        StepTrans(w, w1, Sent(w1, chatId, PassportDataConfirmationPrompt(p), BotKeyboards.PassportConfirmationKeyboard), {s.chatId}, {});
        Outcome(Sent(w1, chatId, PassportDataConfirmationPrompt(p), BotKeyboards.PassportConfirmationKeyboard), s1, false)
  }

  /** `HandleManualVehicleTextAsync`: five fields and a year `int.Parse`
      reads; no range check. A year too large for `int` throws an
      `OverflowException`, which escapes as a fault. */
  function ManualVehicleText(w: World<Body>, chatId: int, text: string, s: Session): (o: Outcome<Body>)
    ensures var f := ManualEntry.Fields(text);
      && (|f| != ManualEntry.FieldCount ==> o == Outcome(Say(w, chatId, ManualVehicleDataFormatError), s, false))
      && (|f| == ManualEntry.FieldCount && ManualEntry.VehicleFromFields(f) == Err(Numbers.OverflowError) ==>
            o == Outcome(w, s, true))
      && (|f| == ManualEntry.FieldCount && ManualEntry.VehicleFromFields(f) == Err(Numbers.FormatError) ==>
            o == Outcome(Say(w, chatId, VehicleYearParseError), s, false))
      && (|f| == ManualEntry.FieldCount && ManualEntry.VehicleFromFields(f).Ok? ==>
            && !o.fault
            && o.session == s.(vehicleData := Some(ManualEntry.VehicleFromFields(f).value), state := ConformingVehicleDoc)
            && o.world.store == Repository.Updated(w.store, o.session))
    ensures Step(w, o.world, {s.chatId})
  {
    var f := ManualEntry.Fields(text);
    if |f| != ManualEntry.FieldCount then
      SayStep(w, chatId, ManualVehicleDataFormatError);
      Outcome(Say(w, chatId, ManualVehicleDataFormatError), s, false)
    else match ManualEntry.VehicleFromFields(f)
      case Err(e) =>
        if e == Numbers.OverflowError then Outcome(w, s, true)
        else
          SayStep(w, chatId, VehicleYearParseError);
          Outcome(Say(w, chatId, VehicleYearParseError), s, false)
      case Ok(v) =>
        var s1 := s.(vehicleData := Some(v), state := ConformingVehicleDoc);
        var w1 := Persisted(w, s1);
        PersistedStep(w, s1);
        SentStep(w1, chatId, VehicleDataConfirmationPrompt(v), BotKeyboards.VehicleDocConfirmationKeyboard);
        StepTrans(w, w1, Sent(w1, chatId, VehicleDataConfirmationPrompt(v), BotKeyboards.VehicleDocConfirmationKeyboard), {s.chatId}, {});
        Outcome(Sent(w1, chatId, VehicleDataConfirmationPrompt(v), BotKeyboards.VehicleDocConfirmationKeyboard), s1, false)
  }

  // ---------------------------------------------------------------------
  // Photos

  /** `HandlePassportPhotoAsync`: ConfirmingPassport is stored before
      extraction; a failed extraction keeps the passport. */
  function PassportPhoto(env: Env, w: World<Body>, chatId: int, photo: Telegram.Bytes, s: Session): (o: Outcome<Body>)
    ensures !o.fault
    ensures o.session == s.(state := ConfirmingPassport,
      passportData := if env.extractPassport(photo).Some? then env.extractPassport(photo) else s.passportData)
    ensures o.world.store == Repository.Updated(w.store, o.session)
    ensures Step(w, o.world, {s.chatId})
  {
    var s1 := s.(state := ConfirmingPassport);
    var w1 := Persisted(w, s1);
    PersistedStep(w, s1);
    match env.extractPassport(photo)
    case None =>
      var w2 := Sent(w1, chatId, Plain(PassportExtractionFailed), BotKeyboards.PassportExtractionFailedKeyboard);
      SentStep(w1, chatId, Plain(PassportExtractionFailed), BotKeyboards.PassportExtractionFailedKeyboard);
      StepTrans(w, w1, w2, {s.chatId}, {});
      Outcome(w2, s1, false)
    case Some(p) =>
      var s2 := s1.(passportData := Some(p));
      var w2 := Persisted(w1, s2);
      var w3 := Sent(w2, chatId, PassportDataExtracted(p), BotKeyboards.PassportConfirmationKeyboard);
      Repository.UpdateSuperseded(w.store, s1, s2);
      PersistedStep(w, s2);
      SentStep(w2, chatId, PassportDataExtracted(p), BotKeyboards.PassportConfirmationKeyboard);
      StepTrans(w, w2, w3, {s.chatId}, {});
      Outcome(w3, s2, false)
  }

  /** `HandleVehicleFrontPhotoAsync`: ConfirmingVehicleDocFront is stored
      before extraction; a successful one writes the registration number and
      the year into the vehicle record, creating it if needed. */
  function VehicleFrontPhoto(env: Env, w: World<Body>, chatId: int, photo: Telegram.Bytes, s: Session): (o: Outcome<Body>)
    ensures !o.fault
    ensures var r := env.extractFront(photo);
      o.session == s.(state := ConfirmingVehicleDocFront,
        vehicleData := if r.Some? then Some(WithFront(s.vehicleData, r.value)) else s.vehicleData)
    ensures o.world.store == Repository.Updated(w.store, o.session)
    ensures Step(w, o.world, {s.chatId})
  {
    var s1 := s.(state := ConfirmingVehicleDocFront);
    var w1 := Persisted(w, s1);
    PersistedStep(w, s1);
    match env.extractFront(photo)
    case None =>
      var w2 := Sent(w1, chatId, Plain(VehicleFrontPhotoExtractionFailed), BotKeyboards.VehicleFrontExtractionFailedKeyboard);
      SentStep(w1, chatId, Plain(VehicleFrontPhotoExtractionFailed), BotKeyboards.VehicleFrontExtractionFailedKeyboard);
      StepTrans(w, w1, w2, {s.chatId}, {});
      Outcome(w2, s1, false)
    case Some(f) =>
      var s2 := s1.(vehicleData := Some(WithFront(s1.vehicleData, f)));
      var w2 := Persisted(w1, s2);
      var body := VehicleFrontDataExtracted(f.registrationNumber, f.year);
      var w3 := Sent(w2, chatId, body, BotKeyboards.VehicleFrontConfirmationKeyboard);
      Repository.UpdateSuperseded(w.store, s1, s2);
      PersistedStep(w, s2);
      SentStep(w2, chatId, body, BotKeyboards.VehicleFrontConfirmationKeyboard);
      StepTrans(w, w2, w3, {s.chatId}, {});
      Outcome(w3, s2, false)
  }

  /** `HandleVehicleBackPhotoAsync`: the same for the back page, which
      writes the VIN, the model and the make. */
  function VehicleBackPhoto(env: Env, w: World<Body>, chatId: int, photo: Telegram.Bytes, s: Session): (o: Outcome<Body>)
    ensures !o.fault
    ensures var r := env.extractBack(photo);
      o.session == s.(state := ConfirmingVehicleDocBack,
        vehicleData := if r.Some? then Some(WithBack(s.vehicleData, r.value)) else s.vehicleData)
    ensures o.world.store == Repository.Updated(w.store, o.session)
    ensures Step(w, o.world, {s.chatId})
  {
    var s1 := s.(state := ConfirmingVehicleDocBack);
    var w1 := Persisted(w, s1);
    PersistedStep(w, s1);
    match env.extractBack(photo)
    case None =>
      var w2 := Sent(w1, chatId, Plain(VehicleBackPhotoExtractionFailed), BotKeyboards.VehicleBackExtractionFailedKeyboard);
      SentStep(w1, chatId, Plain(VehicleBackPhotoExtractionFailed), BotKeyboards.VehicleBackExtractionFailedKeyboard);
      StepTrans(w, w1, w2, {s.chatId}, {});
      Outcome(w2, s1, false)
    case Some(b) =>
      var s2 := s1.(vehicleData := Some(WithBack(s1.vehicleData, b)));
      var w2 := Persisted(w1, s2);
      var body := VehicleBackDataExtracted(b.vin, b.model, b.make);
      var w3 := Sent(w2, chatId, body, BotKeyboards.VehicleBackConfirmationKeyboard);
      Repository.UpdateSuperseded(w.store, s1, s2);
      PersistedStep(w, s2);
      SentStep(w2, chatId, body, BotKeyboards.VehicleBackConfirmationKeyboard);
      StepTrans(w, w2, w3, {s.chatId}, {});
      Outcome(w3, s2, false)
  }

  // ---------------------------------------------------------------------
  // Button presses

  function PassportTable(a: Callbacks.Action): Option<ConversationState> {
    match a
    case RetryPassport => Some(AwaitingPassport)
    case ManualPassport => Some(EnteringPassportData)
    case ConfirmPassport => Some(AwaitingVehicleFront)
    case _ => Option.None
  }

  function VehicleTable(a: Callbacks.Action): Option<ConversationState> {
    match a
    case RetryVehicleFront => Some(AwaitingVehicleFront)
    case ConfirmVehicleFront => Some(AwaitingVehicleBack)
    case RetryVehicleBack => Some(AwaitingVehicleBack)
    case ConfirmVehicleBack => Some(ConformingVehicleDoc)
    case ConfirmVehicleDoc => Some(AwaitingPriceConfirmation)
    case ManualVehicle => Some(EnteringVehicleData)
    case _ => Option.None
  }

  /** Only the two answers to the offer; `restart` is not among them. */
  function PriceTable(a: Callbacks.Action): Option<ConversationState> {
    match a
    case AgreePrice => Some(GeneratingPolicy)
    case DeclinePrice => Some(AwaitingPriceConfirmation)
    case _ => Option.None
  }

  /** The state a button press moves a session to, by the state it is in. */
  function CallbackTarget(state: ConversationState, a: Callbacks.Action): Option<ConversationState> {
    match state
    case ConfirmingPassport => PassportTable(a)
    case ConfirmingVehicleDocFront => VehicleTable(a)
    case ConfirmingVehicleDocBack => VehicleTable(a)
    case ConformingVehicleDoc => VehicleTable(a)
    case AwaitingPriceConfirmation => PriceTable(a)
    case _ => Option.None
  }

  /** `HandlePassportConfirmationCallbacks`. */
  function PassportConfirmationCallbacks(w: World<Body>, data: Option<string>, chatId: int, s: Session): (o: Outcome<Body>)
    ensures !o.fault
    ensures var t := PassportTable(Callbacks.Decode(data));
      && (t.Some? ==> o.session == s.(state := t.value) && o.world.store == Repository.Updated(w.store, o.session))
      && (t.None? ==> o == Outcome(Say(w, chatId, InvalidActionContext), s, false))
    ensures Step(w, o.world, {s.chatId})
  {
    var a := Callbacks.Decode(data);
    match PassportTable(a)
    case None =>
      SayStep(w, chatId, InvalidActionContext);
      Outcome(Say(w, chatId, InvalidActionContext), s, false)
    case Some(next) =>
      var s1 := s.(state := next);
      var w1 := Persisted(w, s1);
      PersistedStep(w, s1);
      var m :=
        if a.RetryPassport? then AwaitingPassportPhoto
        else if a.ManualPassport? then ManualPassportDataPrompt
        else PassportConfirmedPromptVehicleFront;
      SayStep(w1, chatId, m);
      StepTrans(w, w1, Say(w1, chatId, m), {s.chatId}, {});
      Outcome(Say(w1, chatId, m), s1, false)
  }

  /** `HandleVehicleConfirmationCallbacks`; confirming the back page without
      a vehicle record throws while building the summary, after the new
      state was stored. */
  function VehicleConfirmationCallbacks(w: World<Body>, data: Option<string>, chatId: int, s: Session): (o: Outcome<Body>)
    ensures o.fault <==> Callbacks.Decode(data) == Callbacks.ConfirmVehicleBack && s.vehicleData.None?
    ensures var t := VehicleTable(Callbacks.Decode(data));
      && (t.Some? ==> o.session == s.(state := t.value) && o.world.store == Repository.Updated(w.store, o.session))
      && (t.None? ==> o == Outcome(Say(w, chatId, InvalidActionContext), s, false))
    ensures Step(w, o.world, {s.chatId})
  {
    var a := Callbacks.Decode(data);
    match VehicleTable(a)
    case None =>
      SayStep(w, chatId, InvalidActionContext);
      Outcome(Say(w, chatId, InvalidActionContext), s, false)
    case Some(next) =>
      var s1 := s.(state := next);
      var w1 := Persisted(w, s1);
      PersistedStep(w, s1);
      if a.ConfirmVehicleBack? && s1.vehicleData.None? then
        Outcome(w1, s1, true)
      else
        var w2 :=
          if a.RetryVehicleFront? then Say(w1, chatId, AwaitingVehicleFrontPhoto)
          else if a.ConfirmVehicleFront? then Say(w1, chatId, VehicleFrontConfirmedPromptVehicleBack)
          else if a.RetryVehicleBack? then Say(w1, chatId, AwaitingVehicleBackPhoto)
          else if a.ConfirmVehicleBack? then
            Sent(w1, chatId, VehicleDataConfirmationPrompt(s1.vehicleData.value), BotKeyboards.VehicleDocConfirmationKeyboard)
          else if a.ConfirmVehicleDoc? then PriceRequested(w1, chatId)
          else Say(w1, chatId, ManualVehicleDataPrompt);
        assert w2.outbox[|w1.outbox|..] == [w2.outbox[|w1.outbox|]];
        StepTrans(w, w1, w2, {s.chatId}, {});
        Outcome(w2, s1, false)
  }

  /** Whether the session holds both records a policy needs. */
  predicate Complete(s: Session) {
    s.passportData.Some? && s.vehicleData.Some?
  }

  /** `GenerateAndSendPolicyAsync`: with both records and a delivered
      document the session is completed; otherwise it stays where it was. */
  function PolicyGenerated(env: Env, w: World<Body>, chatId: int, s: Session): (o: Outcome<Body>)
    ensures !o.fault
    ensures Complete(s) && env.policySent ==>
      && o.session == s.(state := Completed)
      && o.world.store == Repository.Updated(w.store, o.session)
      && |w.outbox| <= |o.world.outbox| && Telegram.SendDocument(chatId) in o.world.outbox[|w.outbox|..]
    ensures !Complete(s) ==> o == Outcome(Say(w, chatId, MissingPolicyDataError), s, false)
    ensures Complete(s) && !env.policySent ==> o == Outcome(Say(w, chatId, ErrorOccurred), s, false)
    ensures s.chatId == chatId ==> Step(w, o.world, {s.chatId})
  {
    if !Complete(s) then
      SayStep(w, chatId, MissingPolicyDataError);
      Outcome(Say(w, chatId, MissingPolicyDataError), s, false)
    else if !env.policySent then
      SayStep(w, chatId, ErrorOccurred);
      Outcome(Say(w, chatId, ErrorOccurred), s, false)
    else
      var w1 := w.(outbox := w.outbox + [Telegram.SendDocument(chatId)]);
      var s1 := s.(state := Completed);
      var w2 := Persisted(w1, s1);
      var w3 := Sent(w2, chatId, PolicyGenerationSuccess, BotKeyboards.NoMarkup);
      assert w3.outbox[|w.outbox|..] == [Telegram.SendDocument(chatId), Telegram.Send(chatId, PolicyGenerationSuccess, BotKeyboards.NoMarkup)];
      assert Repository.KeysMatch(w.store) ==> Repository.KeysMatch(w2.store) by {
        if Repository.KeysMatch(w.store) {
          Repository.UpdateKeepsKeysMatch(w.store, s1);
        }
      }
      Outcome(w3, s1, false)
  }

  /** `HandlePriceConfirmationCallbacks`. */
  function PriceConfirmationCallbacks(env: Env, w: World<Body>, data: Option<string>, chatId: int, s: Session): (o: Outcome<Body>)
    ensures !o.fault
    ensures var a := Callbacks.Decode(data);
      && (a == Callbacks.AgreePrice ==>
            && o.session == s.(state := if Complete(s) && env.policySent then Completed else GeneratingPolicy)
            && o.world.store == Repository.Updated(w.store, o.session))
      && (a == Callbacks.DeclinePrice ==>
            && o.session == s.(state := AwaitingPriceConfirmation)
            && o.world.store == Repository.Updated(w.store, o.session))
      && (PriceTable(a).None? ==> o == Outcome(Say(w, chatId, InvalidActionContext), s, false))
    ensures s.chatId == chatId ==> Step(w, o.world, {chatId})
  {
    match Callbacks.Decode(data)
    case AgreePrice =>
      var s1 := s.(state := GeneratingPolicy);
      var w1 := Persisted(w, s1);
      PersistedStep(w, s1);
      var o := PolicyGenerated(env, w1, chatId, s1);
      assert s.chatId == chatId ==> Step(w, o.world, {chatId}) by {
        if s.chatId == chatId {
          StepTrans(w, w1, o.world, {s.chatId}, {s.chatId});
        }
      }
      Repository.UpdateSuperseded(w.store, s1, o.session);
      o
    case DeclinePrice =>
      var s1 := s.(state := AwaitingPriceConfirmation);
      var w1 := Persisted(w, s1);
      PersistedStep(w, s1);
      SentStep(w1, chatId, Plain(DeclinedPriceOffer), BotKeyboards.DeclinedPriceOfferKeyboard);
      var w2 := Sent(w1, chatId, Plain(DeclinedPriceOffer), BotKeyboards.DeclinedPriceOfferKeyboard);
      StepTrans(w, w1, w2, {s.chatId}, {});
      Outcome(w2, s1, false)
    case _ =>
      SayStep(w, chatId, InvalidActionContext);
      Outcome(Say(w, chatId, InvalidActionContext), s, false)
  }

  // ---------------------------------------------------------------------
  // Dispatch

  function Unrecognized(w: World<Body>, chatId: int, s: Session): (o: Outcome<Body>)
    ensures o == Outcome(Say(w, chatId, UnrecognizedMessage), s, false)
    ensures Step(w, o.world, {})
  {
    SayStep(w, chatId, UnrecognizedMessage);
    Outcome(Say(w, chatId, UnrecognizedMessage), s, false)
  }

  /** `HandleMessageUpdateAsync`. */
  function MessageUpdate(env: Env, w: World<Body>, m: Telegram.Message, s: Session): (o: Outcome<Body>)
    ensures s.chatId == m.chatId ==> Step(w, o.world, {m.chatId})
  {
    var chatId := m.chatId;
    match s.state
    case AwaitingPassport =>
      if Telegram.HasPhoto(m) then PassportPhoto(env, w, chatId, m.photo.value, s)
      else Unrecognized(w, chatId, s)
    case EnteringPassportData =>
      if !Telegram.IsNullOrEmpty(m.text) then ManualPassportText(w, chatId, m.text.value, s)
      else Unrecognized(w, chatId, s)
    case AwaitingVehicleFront =>
      if Telegram.HasPhoto(m) then VehicleFrontPhoto(env, w, chatId, m.photo.value, s)
      else Unrecognized(w, chatId, s)
    case AwaitingVehicleBack =>
      if Telegram.HasPhoto(m) then VehicleBackPhoto(env, w, chatId, m.photo.value, s)
      else Unrecognized(w, chatId, s)
    case EnteringVehicleData =>
      if !Telegram.IsNullOrEmpty(m.text) then ManualVehicleText(w, chatId, m.text.value, s)
      else Unrecognized(w, chatId, s)
    case AwaitingPriceConfirmation =>
      SentStep(w, chatId, PriceConfirmationPrompt(100), BotKeyboards.PriceConfirmationKeyboard);
      Outcome(PriceRequested(w, chatId), s, false)
    case Completed =>
      SayStep(w, chatId, PolicyAlreadyIssued);
      Outcome(Say(w, chatId, PolicyAlreadyIssued), s, false)
    case _ => Unrecognized(w, chatId, s)
  }

  /** `HandleCallbackQueryUpdateAsync`. */
  function CallbackQueryUpdate(env: Env, w: World<Body>, data: Option<string>, chatId: int, s: Session): (o: Outcome<Body>)
    ensures s.chatId == chatId ==> Step(w, o.world, {chatId})
  {
    match s.state
    case ConfirmingPassport => PassportConfirmationCallbacks(w, data, chatId, s)
    case ConfirmingVehicleDocFront => VehicleConfirmationCallbacks(w, data, chatId, s)
    case ConfirmingVehicleDocBack => VehicleConfirmationCallbacks(w, data, chatId, s)
    case ConformingVehicleDoc => VehicleConfirmationCallbacks(w, data, chatId, s)
    case AwaitingPriceConfirmation => PriceConfirmationCallbacks(env, w, data, chatId, s)
    case Completed =>
      SayStep(w, chatId, PolicyAlreadyIssued);
      Outcome(Say(w, chatId, PolicyAlreadyIssued), s, false)
    case _ =>
      SayStep(w, chatId, InvalidActionContext);
      Outcome(Say(w, chatId, InvalidActionContext), s, false)
  }

  /** `HandleUpdateAsync`: an update without a chat is ignored; `/start`
      resets; otherwise the message or button press is dispatched on the
      session's state, a button press being acknowledged first, and an
      escaping exception is answered with the generic error. */
  function Handled(env: Env, w: World<Body>, u: Telegram.Update): (w': World<Body>)
    ensures Repository.KeysMatch(w.store) ==> Step(w, w', {Telegram.ChatIdOf(u)})
  {
    var chatId := Telegram.ChatIdOf(u);
    if chatId == 0 then w
    else if Telegram.IsStartCommand(Telegram.TextOf(u)) then Start(w, chatId)
    else
      var s := SessionFor(w.store, chatId);
      var o :=
        if u.MessageUpdate? then MessageUpdate(env, w, u.message, s)
        else CallbackQueryUpdate(env, Answered(w), u.query.data, chatId, s);
      assert s.chatId == chatId ==> Step(w, o.world, {chatId}) by {
        if u.CallbackQueryUpdate? && s.chatId == chatId {
          AnsweredStep(w);
          StepTrans(w, Answered(w), o.world, {}, {chatId});
        }
      }
      if o.fault then
        var w' := Say(o.world, chatId, ErrorOccurred);
        assert s.chatId == chatId ==> Step(w, w', {chatId}) by {
          if s.chatId == chatId {
            SayStep(o.world, chatId, ErrorOccurred);
            StepTrans(w, o.world, w', {chatId}, {});
          }
        }
        w'
      else o.world
  }

  // ---------------------------------------------------------------------
  // Properties of whole updates

  /** `/start`, in any state, leaves a fresh session awaiting the passport
      and exactly the greeting; other chats are untouched. */
  lemma StartResets(env: Env, w: World<Body>, u: Telegram.Update)
    requires Telegram.ChatIdOf(u) != 0 && Telegram.IsStartCommand(Telegram.TextOf(u))
    ensures var c, w' := Telegram.ChatIdOf(u), Handled(env, w, u);
      && Repository.Lookup(w'.store, c) == Some(NewSession(c, AwaitingPassport))
      && w'.outbox == w.outbox + [Telegram.Send(c, Plain(StartMessage), BotKeyboards.NoMarkup)]
      && (forall k :: k != c ==> Repository.Lookup(w'.store, k) == Repository.Lookup(w.store, k))
  {
  }

  /** A session is completed only by an update that sends its chat the
      policy document. */
  lemma CompletedOnlyAfterIssuance(env: Env, w: World<Body>, u: Telegram.Update, k: int)
    requires Repository.KeysMatch(w.store)
    requires StateOf(w.store, k) != Some(Completed)
    requires StateOf(Handled(env, w, u).store, k) == Some(Completed)
    ensures Telegram.SendDocument(k) in Handled(env, w, u).outbox[|w.outbox|..]
  {
    var w' := Handled(env, w, u);
    assert k in Completions(w'.store) - Completions(w.store);
    Telegram.DocumentChatsMember(w'.outbox[|w.outbox|..], k);
  }

  /** Once completed, every message and button press other than `/start`
      is answered "already issued" and changes nothing. */
  lemma CompletedAnswersAlreadyIssued(env: Env, w: World<Body>, u: Telegram.Update)
    requires Telegram.ChatIdOf(u) != 0 && !Telegram.IsStartCommand(Telegram.TextOf(u))
    requires Repository.KeysMatch(w.store) && StateOf(w.store, Telegram.ChatIdOf(u)) == Some(Completed)
    ensures var c, w' := Telegram.ChatIdOf(u), Handled(env, w, u);
      && w'.store == w.store
      && w'.outbox == w.outbox + (if u.CallbackQueryUpdate? then [Telegram.AnswerCallbackQuery] else [])
                              + [Telegram.Send(c, Plain(PolicyAlreadyIssued), BotKeyboards.NoMarkup)]
  {
  }

  /** While the price is on offer any message, text or photo, is answered
      with the offer again and changes nothing. */
  lemma PriceOfferRepeated(env: Env, w: World<Body>, m: Telegram.Message)
    requires m.chatId != 0 && !Telegram.IsStartCommand(m.text)
    requires Repository.KeysMatch(w.store) && StateOf(w.store, m.chatId) == Some(AwaitingPriceConfirmation)
    ensures Handled(env, w, Telegram.MessageUpdate(m)) ==
      w.(outbox := w.outbox + [Telegram.Send(m.chatId, PriceConfirmationPrompt(100), BotKeyboards.PriceConfirmationKeyboard)])
  {
  }

  /** How `HandleUpdateAsync` treats a message that is not `/start`. */
  lemma HandleMessage(env: Env, w: World<Body>, m: Telegram.Message)
    requires m.chatId != 0 && !Telegram.IsStartCommand(m.text)
    ensures var o := MessageUpdate(env, w, m, SessionFor(w.store, m.chatId));
      Handled(env, w, Telegram.MessageUpdate(m)) == if o.fault then Say(o.world, m.chatId, ErrorOccurred) else o.world
  {
  }

  /** A typed passport is stored, with the state ConfirmingPassport, exactly
      when it has five fields and three readable dates, however implausible
      the dates; otherwise the store stays. */
  lemma ManualPassportUpdate(env: Env, w: World<Body>, m: Telegram.Message)
    requires m.chatId != 0 && Repository.KeysMatch(w.store)
    requires StateOf(w.store, m.chatId) == Some(EnteringPassportData)
    requires m.text.Some? && m.text.value != [] && !Telegram.IsStartCommand(m.text)
    ensures var c, w', f := m.chatId, Handled(env, w, Telegram.MessageUpdate(m)), ManualEntry.Fields(m.text.value);
      var p := if |f| == ManualEntry.FieldCount then ManualEntry.PassportFromFields(f) else Option.None;
      && (p.Some? ==> w'.store == w.store[c := w.store[c].(state := ConfirmingPassport, passportData := p)])
      && (p.None? ==> w'.store == w.store)
  {
    ManualPassportDispatch(env, w, m);
    ManualPassportEffect(w, m);
  }

  lemma ManualPassportDispatch(env: Env, w: World<Body>, m: Telegram.Message)
    requires m.chatId != 0 && Repository.KeysMatch(w.store)
    requires StateOf(w.store, m.chatId) == Some(EnteringPassportData)
    requires m.text.Some? && m.text.value != [] && !Telegram.IsStartCommand(m.text)
    ensures Handled(env, w, Telegram.MessageUpdate(m)) == ManualPassportText(w, m.chatId, m.text.value, w.store[m.chatId]).world
  {
    var s := w.store[m.chatId];
    assert SessionFor(w.store, m.chatId) == s;
    HandleMessage(env, w, m);
    MessageToManualPassport(env, w, m, s, m.text.value);
  }

  lemma MessageToManualPassport(env: Env, w: World<Body>, m: Telegram.Message, s: Session, text: string)
    requires s.state == EnteringPassportData && m.text == Some(text) && text != []
    ensures MessageUpdate(env, w, m, s) == ManualPassportText(w, m.chatId, text, s)
  {
  }

  /** What the passport handler does to the stored session. */
  lemma ManualPassportEffect(w: World<Body>, m: Telegram.Message)
    requires Repository.KeysMatch(w.store)
    requires StateOf(w.store, m.chatId) == Some(EnteringPassportData)
    requires m.text.Some?
    ensures var c, f := m.chatId, ManualEntry.Fields(m.text.value);
      var w' := ManualPassportText(w, c, m.text.value, w.store[c]).world;
      var p := if |f| == ManualEntry.FieldCount then ManualEntry.PassportFromFields(f) else Option.None;
      && (p.Some? ==> w'.store == w.store[c := w.store[c].(state := ConfirmingPassport, passportData := p)])
      && (p.None? ==> w'.store == w.store)
  {
    var c, f := m.chatId, ManualEntry.Fields(m.text.value);
    if |f| == ManualEntry.FieldCount && ManualEntry.PassportFromFields(f).Some? {
      Repository.UpdateWithChangedRecord(w.store, w.store[c].(state := ConfirmingPassport, passportData := ManualEntry.PassportFromFields(f)));
    }
  }

  /** A typed vehicle is stored wholesale, with the state
      ConformingVehicleDoc, exactly when it has five fields and a year that
      fits `int`; a year beyond `int` is answered with the generic error. */
  lemma ManualVehicleUpdate(env: Env, w: World<Body>, m: Telegram.Message)
    requires m.chatId != 0 && Repository.KeysMatch(w.store)
    requires StateOf(w.store, m.chatId) == Some(EnteringVehicleData)
    requires m.text.Some? && m.text.value != [] && !Telegram.IsStartCommand(m.text)
    ensures var c, w', f := m.chatId, Handled(env, w, Telegram.MessageUpdate(m)), ManualEntry.Fields(m.text.value);
      var r := if |f| == ManualEntry.FieldCount then ManualEntry.VehicleFromFields(f) else Err(Numbers.FormatError);
      && (r.Ok? ==> w'.store == w.store[c := w.store[c].(state := ConformingVehicleDoc, vehicleData := Some(r.value))])
      && (r.Err? ==> w'.store == w.store)
      && (r == Err(Numbers.OverflowError) ==> w' == Say(w, c, ErrorOccurred))
  {
    ManualVehicleDispatch(env, w, m);
    ManualVehicleEffect(w, m);
  }

  lemma ManualVehicleDispatch(env: Env, w: World<Body>, m: Telegram.Message)
    requires m.chatId != 0 && Repository.KeysMatch(w.store)
    requires StateOf(w.store, m.chatId) == Some(EnteringVehicleData)
    requires m.text.Some? && m.text.value != [] && !Telegram.IsStartCommand(m.text)
    ensures var o := ManualVehicleText(w, m.chatId, m.text.value, w.store[m.chatId]);
      Handled(env, w, Telegram.MessageUpdate(m)) == if o.fault then Say(o.world, m.chatId, ErrorOccurred) else o.world
  {
    var s := w.store[m.chatId];
    assert SessionFor(w.store, m.chatId) == s;
    HandleMessage(env, w, m);
    MessageToManualVehicle(env, w, m, s, m.text.value);
  }

  lemma MessageToManualVehicle(env: Env, w: World<Body>, m: Telegram.Message, s: Session, text: string)
    requires s.state == EnteringVehicleData && m.text == Some(text) && text != []
    ensures MessageUpdate(env, w, m, s) == ManualVehicleText(w, m.chatId, text, s)
  {
  }

  /** What the vehicle handler and, on a fault, the `catch` do together. */
  lemma ManualVehicleEffect(w: World<Body>, m: Telegram.Message)
    requires Repository.KeysMatch(w.store)
    requires StateOf(w.store, m.chatId) == Some(EnteringVehicleData)
    requires m.text.Some?
    ensures var c, f := m.chatId, ManualEntry.Fields(m.text.value);
      var o := ManualVehicleText(w, c, m.text.value, w.store[c]);
      var w' := if o.fault then Say(o.world, c, ErrorOccurred) else o.world;
      var r := if |f| == ManualEntry.FieldCount then ManualEntry.VehicleFromFields(f) else Err(Numbers.FormatError);
      && (r.Ok? ==> w'.store == w.store[c := w.store[c].(state := ConformingVehicleDoc, vehicleData := Some(r.value))])
      && (r.Err? ==> w'.store == w.store)
      && (r == Err(Numbers.OverflowError) ==> w' == Say(w, c, ErrorOccurred))
  {
    var c, f := m.chatId, ManualEntry.Fields(m.text.value);
    if |f| == ManualEntry.FieldCount && ManualEntry.VehicleFromFields(f).Ok? {
      var v := ManualEntry.VehicleFromFields(f).value;
      Repository.UpdateWithChangedRecord(w.store, w.store[c].(state := ConformingVehicleDoc, vehicleData := Some(v)));
    }
  }

  /** What a user types in the documented format is what gets stored, with
      no check that the dates are plausible. */
  lemma PassportLineAccepted(w: World<Body>, chatId: int, p: PassportData, s: Session)
    requires p.fullName.Some? && ManualEntry.IsField(p.fullName.value)
    requires p.passportNumber.Some? && ManualEntry.IsField(p.passportNumber.value)
    requires Dates.IsValid(p.dateOfBirth) && Dates.IsValid(p.issueDate) && Dates.IsValid(p.expiryDate)
    ensures ManualPassportText(w, chatId, ManualEntry.PassportLine(p), s).session
      == s.(passportData := Some(p), state := ConfirmingPassport)
  {
    ManualEntry.PassportLineRoundTrip(p);
  }

  /** The same for the vehicle, with any year that fits `int`. */
  lemma VehicleLineAccepted(w: World<Body>, chatId: int, v: VehicleData, s: Session)
    requires v.vin.Some? && ManualEntry.IsField(v.vin.value)
    requires v.make.Some? && ManualEntry.IsField(v.make.value)
    requires v.model.Some? && ManualEntry.IsField(v.model.value)
    requires v.year.Some? && Numbers.InInt32(v.year.value)
    requires v.registrationNumber.Some? && ManualEntry.IsField(v.registrationNumber.value)
    ensures ManualVehicleText(w, chatId, ManualEntry.VehicleLine(v), s).session
      == s.(vehicleData := Some(v), state := ConformingVehicleDoc)
  {
    ManualEntry.VehicleLineRoundTrip(v);
  }

  /** A passport photo stores ConfirmingPassport whatever extraction does,
      and replaces the passport only with an extracted one. */
  lemma PassportPhotoUpdate(env: Env, w: World<Body>, m: Telegram.Message)
    requires m.chatId != 0 && Repository.KeysMatch(w.store)
    requires StateOf(w.store, m.chatId) == Some(AwaitingPassport)
    requires Telegram.HasPhoto(m) && !Telegram.IsStartCommand(m.text)
    ensures var c, w', r := m.chatId, Handled(env, w, Telegram.MessageUpdate(m)), env.extractPassport(m.photo.value);
      w'.store == w.store[c := w.store[c].(state := ConfirmingPassport,
                                           passportData := if r.Some? then r else w.store[c].passportData)]
  {
    HandleMessage(env, w, m);
    assert SessionFor(w.store, m.chatId) == w.store[m.chatId];
  }

  /** The front page stores ConfirmingVehicleDocFront; when read, its two
      fields enter the vehicle record and the other three are kept. */
  lemma FrontPhotoUpdate(env: Env, w: World<Body>, m: Telegram.Message)
    requires m.chatId != 0 && Repository.KeysMatch(w.store)
    requires StateOf(w.store, m.chatId) == Some(AwaitingVehicleFront)
    requires Telegram.HasPhoto(m) && !Telegram.IsStartCommand(m.text)
    ensures var c, w', r := m.chatId, Handled(env, w, Telegram.MessageUpdate(m)), env.extractFront(m.photo.value);
      && StateOf(w'.store, c) == Some(ConfirmingVehicleDocFront)
      && (r.None? ==> w'.store[c].vehicleData == w.store[c].vehicleData)
      && (r.Some? ==>
            var v, v' := w.store[c].vehicleData, w'.store[c].vehicleData.value;
            && v' == WithFront(v, r.value)
            && (v.Some? ==> v'.vin == v.value.vin && v'.make == v.value.make && v'.model == v.value.model))
  {
    HandleMessage(env, w, m);
    assert SessionFor(w.store, m.chatId) == w.store[m.chatId];
  }

  /** The back page stores ConfirmingVehicleDocBack; when read, its three
      fields enter the vehicle record and the other two are kept. */
  lemma BackPhotoUpdate(env: Env, w: World<Body>, m: Telegram.Message)
    requires m.chatId != 0 && Repository.KeysMatch(w.store)
    requires StateOf(w.store, m.chatId) == Some(AwaitingVehicleBack)
    requires Telegram.HasPhoto(m) && !Telegram.IsStartCommand(m.text)
    ensures var c, w', r := m.chatId, Handled(env, w, Telegram.MessageUpdate(m)), env.extractBack(m.photo.value);
      && StateOf(w'.store, c) == Some(ConfirmingVehicleDocBack)
      && (r.None? ==> w'.store[c].vehicleData == w.store[c].vehicleData)
      && (r.Some? ==>
            var v, v' := w.store[c].vehicleData, w'.store[c].vehicleData.value;
            && v' == WithBack(v, r.value)
            && (v.Some? ==> v'.registrationNumber == v.value.registrationNumber && v'.year == v.value.year))
  {
    HandleMessage(env, w, m);
    assert SessionFor(w.store, m.chatId) == w.store[m.chatId];
  }

  /** How `HandleUpdateAsync` treats a button press on a message of a chat. */
  lemma HandleCallback(env: Env, w: World<Body>, q: Telegram.CallbackQuery)
    requires q.chat.Some? && q.chat.value != 0
    ensures var c := q.chat.value;
      var o := CallbackQueryUpdate(env, Answered(w), q.data, c, SessionFor(w.store, c));
      Handled(env, w, Telegram.CallbackQueryUpdate(q)) == if o.fault then Say(o.world, c, ErrorOccurred) else o.world
  {
  }

  /** In the confirmation states a button press stores the state the table
      names, and any other press is answered as invalid and changes
      nothing. */
  lemma ConfirmationCallbackUpdate(env: Env, w: World<Body>, q: Telegram.CallbackQuery)
    requires q.chat.Some? && q.chat.value != 0 && Repository.KeysMatch(w.store)
    requires StateOf(w.store, q.chat.value) in
      {Some(ConfirmingPassport), Some(ConfirmingVehicleDocFront), Some(ConfirmingVehicleDocBack), Some(ConformingVehicleDoc)}
    ensures var c, w' := q.chat.value, Handled(env, w, Telegram.CallbackQueryUpdate(q));
      var t := CallbackTarget(w.store[c].state, Callbacks.Decode(q.data));
      && (t.Some? ==> w'.store == w.store[c := w.store[c].(state := t.value)])
      && (t.None? ==> w' == w.(outbox := w.outbox + [Telegram.AnswerCallbackQuery,
            Telegram.Send(c, Plain(InvalidActionContext), BotKeyboards.NoMarkup)]))
  {
    HandleCallback(env, w, q);
    assert SessionFor(w.store, q.chat.value) == w.store[q.chat.value];
  }

  /** In AwaitingPriceConfirmation `agreePrice` completes the session exactly
      when both records are present and the document was delivered
      (otherwise it stays in GeneratingPolicy), `declinePrice` keeps the
      offer open, and anything else, `restart` included, changes nothing. */
  lemma PriceCallbackUpdate(env: Env, w: World<Body>, q: Telegram.CallbackQuery)
    requires q.chat.Some? && q.chat.value != 0 && Repository.KeysMatch(w.store)
    requires StateOf(w.store, q.chat.value) == Some(AwaitingPriceConfirmation)
    ensures var c, w', a := q.chat.value, Handled(env, w, Telegram.CallbackQueryUpdate(q)), Callbacks.Decode(q.data);
      && (a == Callbacks.AgreePrice ==>
            StateOf(w'.store, c) == Some(if Complete(w.store[c]) && env.policySent then Completed else GeneratingPolicy))
      && (a == Callbacks.DeclinePrice ==> w'.store == w.store)
      && (PriceTable(a).None? ==> w'.store == w.store)
  {
    HandleCallback(env, w, q);
    assert SessionFor(w.store, q.chat.value) == w.store[q.chat.value];
  }

  /** Confirming the read vehicle document stores AwaitingPriceConfirmation;
      the press is answered and the price offer follows with its buttons. */
  lemma VehicleDocConfirmedOffersPrice(env: Env, w: World<Body>, q: Telegram.CallbackQuery)
    requires q.chat.Some? && q.chat.value != 0 && Repository.KeysMatch(w.store)
    requires StateOf(w.store, q.chat.value) == Some(ConformingVehicleDoc)
    requires Callbacks.Decode(q.data) == Callbacks.ConfirmVehicleDoc
    ensures var c, w' := q.chat.value, Handled(env, w, Telegram.CallbackQueryUpdate(q));
      && w'.store == w.store[c := w.store[c].(state := AwaitingPriceConfirmation)]
      && w'.outbox == w.outbox + [Telegram.AnswerCallbackQuery,
           Telegram.Send(c, PriceConfirmationPrompt(100), BotKeyboards.PriceConfirmationKeyboard)]
  {
  }

  /** Declining the offer keeps AwaitingPriceConfirmation; the press is
      answered and the declined-offer message follows with its buttons. */
  lemma PriceDeclinedReply(env: Env, w: World<Body>, q: Telegram.CallbackQuery)
    requires q.chat.Some? && q.chat.value != 0 && Repository.KeysMatch(w.store)
    requires StateOf(w.store, q.chat.value) == Some(AwaitingPriceConfirmation)
    requires Callbacks.Decode(q.data) == Callbacks.DeclinePrice
    ensures var c, w' := q.chat.value, Handled(env, w, Telegram.CallbackQueryUpdate(q));
      && w' == w.(outbox := w.outbox + [Telegram.AnswerCallbackQuery,
           Telegram.Send(c, Plain(DeclinedPriceOffer), BotKeyboards.DeclinedPriceOfferKeyboard)])
  {
  }

  /** `restart` is honoured by no state of this revision, no button
      completes a session, and only `agreePrice` starts issuance. */
  lemma CallbackTargets(state: ConversationState, a: Callbacks.Action)
    ensures CallbackTarget(state, Callbacks.Restart).None?
    ensures CallbackTarget(state, a) != Some(Completed)
    ensures CallbackTarget(state, a) == Some(GeneratingPolicy) <==> state == AwaitingPriceConfirmation && a == Callbacks.AgreePrice
  {
  }

  // ---------------------------------------------------------------------
  // The handler object

  /** The handler: the session repository it shares with the rest of the
      process and the replies it has sent. Each method is proved to do what
      the function of the same step above describes. */
  class BotUpdateHandler {
    const repository: Repository.UserSessionRepositoryInMemory<ConversationState>
    var outbox: seq<Telegram.Reply<Body>>

    constructor(repository: Repository.UserSessionRepositoryInMemory<ConversationState>)
      ensures this.repository == repository && outbox == []
    {
      this.repository := repository;
      outbox := [];
    }

    function Snapshot(): World<Body>
      reads this, repository
    {
      World(repository.sessions, outbox)
    }

    method Send(chatId: int, body: Body, markup: BotKeyboards.Markup)
      modifies this
      ensures Snapshot() == Sent(old(Snapshot()), chatId, body, markup)
    {
      outbox := outbox + [Telegram.Send(chatId, body, markup)];
    }

    method SendText(chatId: int, m: BotMessage)
      modifies this
      ensures Snapshot() == Say(old(Snapshot()), chatId, m)
    {
      Send(chatId, Plain(m), BotKeyboards.NoMarkup);
    }

    method GetOrCreateSession(chatId: int) returns (s: Session)
      ensures s == SessionFor(repository.sessions, chatId)
    {
      var stored := repository.Get(chatId);
      if stored.Some? {
        s := stored.value;
      } else {
        s := NewSession(chatId, ConversationState.None);
      }
    }

    method HandleStartCommand(chatId: int)
      modifies this, repository
      ensures Snapshot() == Start(old(Snapshot()), chatId)
    {
      var found := repository.Delete(chatId);
      var added := repository.Add(NewSession(chatId, AwaitingPassport));
      SendText(chatId, StartMessage);
    }

    method RequestPriceConfirmation(chatId: int)
      modifies this
      ensures Snapshot() == PriceRequested(old(Snapshot()), chatId)
    {
      Send(chatId, PriceConfirmationPrompt(100), BotKeyboards.PriceConfirmationKeyboard);
    }

    method HandleManualPassportText(chatId: int, text: string, session: Session) returns (s: Session, fault: bool)
      modifies this, repository
      ensures Outcome(Snapshot(), s, fault) == ManualPassportText(old(Snapshot()), chatId, text, session)
    {
      s, fault := session, false;
      var parts := ManualEntry.Fields(text);
      if |parts| != ManualEntry.FieldCount {
        SendText(chatId, PassportDataFormatError);
        return;
      }
      var passport := ManualEntry.PassportFromFields(parts);
      if passport.None? {
        SendText(chatId, PassportDateParseError);
        return;
      }
      s := s.(passportData := passport, state := ConfirmingPassport);
      repository.Update(s);
      Send(chatId, PassportDataConfirmationPrompt(passport.value), BotKeyboards.PassportConfirmationKeyboard);
    }

    method HandleManualVehicleText(chatId: int, text: string, session: Session) returns (s: Session, fault: bool)
      modifies this, repository
      ensures Outcome(Snapshot(), s, fault) == ManualVehicleText(old(Snapshot()), chatId, text, session)
    {
      s, fault := session, false;
      var parts := ManualEntry.Fields(text);
      if |parts| != ManualEntry.FieldCount {
        SendText(chatId, ManualVehicleDataFormatError);
        return;
      }
      var vehicle := ManualEntry.VehicleFromFields(parts);
      if vehicle == Err(Numbers.OverflowError) {
        fault := true;
        return;
      }
      if vehicle.Err? {
        SendText(chatId, VehicleYearParseError);
        return;
      }
      s := s.(vehicleData := Some(vehicle.value), state := ConformingVehicleDoc);
      repository.Update(s);
      Send(chatId, VehicleDataConfirmationPrompt(vehicle.value), BotKeyboards.VehicleDocConfirmationKeyboard);
    }

    method HandlePassportPhoto(env: Env, chatId: int, photo: Telegram.Bytes, session: Session) returns (s: Session, fault: bool)
      modifies this, repository
      ensures Outcome(Snapshot(), s, fault) == PassportPhoto(env, old(Snapshot()), chatId, photo, session)
    {
      s, fault := session.(state := ConfirmingPassport), false;
      repository.Update(s);
      var passport := env.extractPassport(photo);
      if passport.None? {
        Send(chatId, Plain(PassportExtractionFailed), BotKeyboards.PassportExtractionFailedKeyboard);
        return;
      }
      s := s.(passportData := passport);
      repository.Update(s);
      Send(chatId, PassportDataExtracted(passport.value), BotKeyboards.PassportConfirmationKeyboard);
    }

    method HandleVehicleFrontPhoto(env: Env, chatId: int, photo: Telegram.Bytes, session: Session) returns (s: Session, fault: bool)
      modifies this, repository
      ensures Outcome(Snapshot(), s, fault) == VehicleFrontPhoto(env, old(Snapshot()), chatId, photo, session)
    {
      s, fault := session.(state := ConfirmingVehicleDocFront), false;
      repository.Update(s);
      var front := env.extractFront(photo);
      if front.None? {
        Send(chatId, Plain(VehicleFrontPhotoExtractionFailed), BotKeyboards.VehicleFrontExtractionFailedKeyboard);
        return;
      }
      s := s.(vehicleData := Some(WithFront(s.vehicleData, front.value)));
      repository.Update(s);
      Send(chatId, VehicleFrontDataExtracted(front.value.registrationNumber, front.value.year),
        BotKeyboards.VehicleFrontConfirmationKeyboard);
    }

    method HandleVehicleBackPhoto(env: Env, chatId: int, photo: Telegram.Bytes, session: Session) returns (s: Session, fault: bool)
      modifies this, repository
      ensures Outcome(Snapshot(), s, fault) == VehicleBackPhoto(env, old(Snapshot()), chatId, photo, session)
    {
      s, fault := session.(state := ConfirmingVehicleDocBack), false;
      repository.Update(s);
      var back := env.extractBack(photo);
      if back.None? {
        Send(chatId, Plain(VehicleBackPhotoExtractionFailed), BotKeyboards.VehicleBackExtractionFailedKeyboard);
        return;
      }
      s := s.(vehicleData := Some(WithBack(s.vehicleData, back.value)));
      repository.Update(s);
      Send(chatId, VehicleBackDataExtracted(back.value.vin, back.value.model, back.value.make),
        BotKeyboards.VehicleBackConfirmationKeyboard);
    }

    method HandlePassportConfirmationCallbacks(data: Option<string>, chatId: int, session: Session) returns (s: Session, fault: bool)
      modifies this, repository
      ensures Outcome(Snapshot(), s, fault) == PassportConfirmationCallbacks(old(Snapshot()), data, chatId, session)
    {
      s, fault := session, false;
      match Callbacks.Decode(data)
      case RetryPassport =>
        s := s.(state := AwaitingPassport);
        repository.Update(s);
        SendText(chatId, AwaitingPassportPhoto);
      case ManualPassport =>
        s := s.(state := EnteringPassportData);
        repository.Update(s);
        SendText(chatId, ManualPassportDataPrompt);
      case ConfirmPassport =>
        s := s.(state := AwaitingVehicleFront);
        repository.Update(s);
        SendText(chatId, PassportConfirmedPromptVehicleFront);
      case _ =>
        SendText(chatId, InvalidActionContext);
    }

    method HandleVehicleConfirmationCallbacks(data: Option<string>, chatId: int, session: Session) returns (s: Session, fault: bool)
      modifies this, repository
      ensures Outcome(Snapshot(), s, fault) == VehicleConfirmationCallbacks(old(Snapshot()), data, chatId, session)
    {
      s, fault := session, false;
      match Callbacks.Decode(data)
      case RetryVehicleFront =>
        s := s.(state := AwaitingVehicleFront);
        repository.Update(s);
        SendText(chatId, AwaitingVehicleFrontPhoto);
      case ConfirmVehicleFront =>
        s := s.(state := AwaitingVehicleBack);
        repository.Update(s);
        SendText(chatId, VehicleFrontConfirmedPromptVehicleBack);
      case RetryVehicleBack =>
        s := s.(state := AwaitingVehicleBack);
        repository.Update(s);
        SendText(chatId, AwaitingVehicleBackPhoto);
      case ConfirmVehicleBack =>
        s := s.(state := ConformingVehicleDoc);
        repository.Update(s);
        if s.vehicleData.None? {
          fault := true;
          return;
        }
        Send(chatId, VehicleDataConfirmationPrompt(s.vehicleData.value), BotKeyboards.VehicleDocConfirmationKeyboard);
      case ConfirmVehicleDoc =>
        s := s.(state := AwaitingPriceConfirmation);
        repository.Update(s);
        RequestPriceConfirmation(chatId);
      case ManualVehicle =>
        s := s.(state := EnteringVehicleData);
        repository.Update(s);
        SendText(chatId, ManualVehicleDataPrompt);
      case _ =>
        SendText(chatId, InvalidActionContext);
    }

    method GenerateAndSendPolicy(env: Env, chatId: int, session: Session) returns (s: Session)
      modifies this, repository
      ensures Outcome(Snapshot(), s, false) == PolicyGenerated(env, old(Snapshot()), chatId, session)
    {
      s := session;
      if s.passportData.None? || s.vehicleData.None? {
        SendText(chatId, MissingPolicyDataError);
        return;
      }
      if !env.policySent {
        SendText(chatId, ErrorOccurred);
        return;
      }
      outbox := outbox + [Telegram.SendDocument(chatId)];
      s := s.(state := Completed);
      repository.Update(s);
      Send(chatId, PolicyGenerationSuccess, BotKeyboards.NoMarkup);
    }

    method HandlePriceConfirmationCallbacks(env: Env, data: Option<string>, chatId: int, session: Session) returns (s: Session, fault: bool)
      modifies this, repository
      ensures Outcome(Snapshot(), s, fault) == PriceConfirmationCallbacks(env, old(Snapshot()), data, chatId, session)
    {
      s, fault := session, false;
      match Callbacks.Decode(data)
      case AgreePrice =>
        s := s.(state := GeneratingPolicy);
        repository.Update(s);
        s := GenerateAndSendPolicy(env, chatId, s);
      case DeclinePrice =>
        s := s.(state := AwaitingPriceConfirmation);
        repository.Update(s);
        Send(chatId, Plain(DeclinedPriceOffer), BotKeyboards.DeclinedPriceOfferKeyboard);
      case _ =>
        SendText(chatId, InvalidActionContext);
    }

    method HandleMessageUpdate(env: Env, m: Telegram.Message, session: Session) returns (s: Session, fault: bool)
      modifies this, repository
      ensures Outcome(Snapshot(), s, fault) == MessageUpdate(env, old(Snapshot()), m, session)
    {
      s, fault := session, false;
      var chatId := m.chatId;
      match s.state
      case AwaitingPassport =>
        if Telegram.HasPhoto(m) {
          s, fault := HandlePassportPhoto(env, chatId, m.photo.value, s);
        } else {
          SendText(chatId, UnrecognizedMessage);
        }
      case EnteringPassportData =>
        if !Telegram.IsNullOrEmpty(m.text) {
          s, fault := HandleManualPassportText(chatId, m.text.value, s);
        } else {
          SendText(chatId, UnrecognizedMessage);
        }
      case AwaitingVehicleFront =>
        if Telegram.HasPhoto(m) {
          s, fault := HandleVehicleFrontPhoto(env, chatId, m.photo.value, s);
        } else {
          SendText(chatId, UnrecognizedMessage);
        }
      case AwaitingVehicleBack =>
        if Telegram.HasPhoto(m) {
          s, fault := HandleVehicleBackPhoto(env, chatId, m.photo.value, s);
        } else {
          SendText(chatId, UnrecognizedMessage);
        }
      case EnteringVehicleData =>
        if !Telegram.IsNullOrEmpty(m.text) {
          s, fault := HandleManualVehicleText(chatId, m.text.value, s);
        } else {
          SendText(chatId, UnrecognizedMessage);
        }
      case AwaitingPriceConfirmation =>
        RequestPriceConfirmation(chatId);
      case Completed =>
        SendText(chatId, PolicyAlreadyIssued);
      case _ =>
        SendText(chatId, UnrecognizedMessage);
    }

    method HandleCallbackQueryUpdate(env: Env, data: Option<string>, chatId: int, session: Session) returns (s: Session, fault: bool)
      modifies this, repository
      ensures Outcome(Snapshot(), s, fault) == CallbackQueryUpdate(env, old(Snapshot()), data, chatId, session)
    {
      s, fault := session, false;
      match s.state
      case ConfirmingPassport =>
        s, fault := HandlePassportConfirmationCallbacks(data, chatId, s);
      case ConfirmingVehicleDocFront =>
        s, fault := HandleVehicleConfirmationCallbacks(data, chatId, s);
      case ConfirmingVehicleDocBack =>
        s, fault := HandleVehicleConfirmationCallbacks(data, chatId, s);
      case ConformingVehicleDoc =>
        s, fault := HandleVehicleConfirmationCallbacks(data, chatId, s);
      case AwaitingPriceConfirmation =>
        s, fault := HandlePriceConfirmationCallbacks(env, data, chatId, s);
      case Completed =>
        SendText(chatId, PolicyAlreadyIssued);
      case _ =>
        SendText(chatId, InvalidActionContext);
    }

    /** `HandleUpdateAsync`. */
    method HandleUpdate(env: Env, u: Telegram.Update)
      modifies this, repository
      ensures Snapshot() == Handled(env, old(Snapshot()), u)
    {
      var chatId := Telegram.ChatIdOf(u);
      if chatId == 0 {
        return;
      }
      if Telegram.IsStartCommand(Telegram.TextOf(u)) {
        HandleStartCommand(chatId);
        return;
      }
      var session := GetOrCreateSession(chatId);
      var fault;
      if u.MessageUpdate? {
        session, fault := HandleMessageUpdate(env, u.message, session);
      } else {
        outbox := outbox + [Telegram.AnswerCallbackQuery];
        session, fault := HandleCallbackQueryUpdate(env, u.query.data, chatId, session);
      }
      if fault {
        SendText(chatId, ErrorOccurred);
      }
    }
  }
}
