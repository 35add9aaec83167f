/** The newest revision of the update handler: a per-chat conversation that
    collects a passport, a country and a vehicle registration document, offers
    a price and issues a policy.

    Each step of the handler is first stated as a function from the world
    before it (session store, pending-page buffers, replies sent so far) to
    the world after it, together with the handler's local copy of the session
    and whether an exception escaped; the class `BotUpdateHandler` below
    carries out the same steps on mutable state and is proved to agree. */
module BotService {
  import opened Wrappers
  import Text
  import Numbers
  import Dates
  import Models
  import opened UserDataModels
  import BotKeyboards
  import BotMessages
  import Telegram
  import MindeeSettings
  import ManualEntry
  import Repository
  import Callbacks

  type Session = Models.UserSession<ConversationState>
  type Store = Repository.Store<ConversationState>
  type Pages = seq<Telegram.Bytes>
  type Cache = map<int, Pages>
  type Reply = Telegram.Reply<BotMessages.Body>

  /** What the handler learns from outside: the current year, the Gemini
      answer to a text in a state (`None` when the call fails or answers
      nothing), the OCR results (`None` when extraction throws), whether the
      policy document reaches the chat, and the OCR country profiles. */
  datatype Env = Env(
    currentYear: int,
    gemini: (Option<string>, ConversationState) -> Option<string>,
    extractPassport: Telegram.Bytes -> Option<Models.PassportData>,
    extractVehicle: (Pages, Option<string>) -> Option<Models.VehicleData>,
    policySent: bool,
    mindee: MindeeSettings.MindeeSettings)

  /** Everything a step can change: the session store, the process-wide
      pending-page buffers and the replies sent so far. The page buffers are
      what this revision adds to `Conversation.World`, so the world, its
      store queries and the Step invariant are declared anew here. */
  datatype World = World(store: Store, cache: Cache, outbox: seq<Reply>)

  /** A step's result: the new world, the handler's copy of the session, and
      whether an exception escaped the step. */
  datatype Outcome = Outcome(world: World, session: Session, fault: bool)

  function StateOf(store: Store, chatId: int): Option<ConversationState> {
    if chatId in store then Some(store[chatId].state) else Option.None
  }

  function PagesOf(cache: Cache, chatId: int): Option<Pages> {
    if chatId in cache then Some(cache[chatId]) else Option.None
  }

  /** What handling an update may do to the world: append replies, touch the
      stored sessions and page buffers of the given chats only, keep every
      record under its own chat id, and complete a session only while
      sending that chat its policy document. */
  ghost predicate Step(w: World, w': World, chats: set<int>) {
    && |w.outbox| <= |w'.outbox| && w'.outbox[..|w.outbox|] == w.outbox
    && (forall k :: k !in chats ==> Repository.Lookup(w'.store, k) == Repository.Lookup(w.store, k))
    && (forall k :: k !in chats ==> PagesOf(w'.cache, k) == PagesOf(w.cache, k))
    && (Repository.KeysMatch(w.store) ==> Repository.KeysMatch(w'.store))
    && Completions(w'.store) - Completions(w.store) <= Telegram.DocumentChats(w'.outbox[|w.outbox|..])
  }

  /** The chats whose stored session is Completed. */
  ghost function Completions(store: Store): set<int> {
    set k | k in store && store[k].state == Completed
  }

  lemma StepTrans(w1: World, w2: World, w3: World, c1: set<int>, c2: set<int>)
    requires Step(w1, w2, c1) && Step(w2, w3, c2)
    ensures Step(w1, w3, c1 + c2)
  {
    assert w3.outbox[..|w1.outbox|] == w3.outbox[..|w2.outbox|][..|w1.outbox|];
    assert w3.outbox[|w1.outbox|..] == w2.outbox[|w1.outbox|..] + w3.outbox[|w2.outbox|..];
    Telegram.DocumentChatsConcat(w2.outbox[|w1.outbox|..], w3.outbox[|w2.outbox|..]);
  }

  function Sent(w: World, chatId: int, body: BotMessages.Body, markup: BotKeyboards.Markup): World {
    w.(outbox := w.outbox + [Telegram.Send(chatId, body, markup)])
  }

  /** A fixed text reply without keyboard. */
  function Say(w: World, chatId: int, m: BotMessages.Message): World {
    Sent(w, chatId, BotMessages.Plain(m), BotKeyboards.NoMarkup)
  }

  /** A computed text reply without keyboard. */
  function Tell(w: World, chatId: int, text: string): World {
    Sent(w, chatId, BotMessages.Text(text), BotKeyboards.NoMarkup)
  }

  /** `_sessionRepository.UpdateAsync(s)`. */
  function Persisted(w: World, s: Session): World {
    w.(store := Repository.Updated(w.store, s))
  }

  lemma SayStep(w: World, chatId: int, m: BotMessages.Message)
    ensures Step(w, Say(w, chatId, m), {})
  {
    assert Say(w, chatId, m).outbox[|w.outbox|..] == [Telegram.Send(chatId, BotMessages.Plain(m), BotKeyboards.NoMarkup)];
  }

  lemma TellStep(w: World, chatId: int, text: string)
    ensures Step(w, Tell(w, chatId, text), {})
  {
    assert Tell(w, chatId, text).outbox[|w.outbox|..] == [Telegram.Send(chatId, BotMessages.Text(text), BotKeyboards.NoMarkup)];
  }

  lemma PersistedStep(w: World, s: Session)
    requires s.state != Completed
    ensures Step(w, Persisted(w, s), {s.chatId})
  {
    if Repository.KeysMatch(w.store) {
      Repository.UpdateKeepsKeysMatch(w.store, s);
    }
  }

  /** `GetOrCreateSessionAsync`: the stored session, or a new one in state
      `None` that is not stored. */
  function SessionFor(store: Store, chatId: int): (s: Session)
    ensures Repository.KeysMatch(store) ==> s.chatId == chatId
    ensures chatId !in store ==> s == Models.NewSession(chatId, ConversationState.None)
    ensures chatId in store ==> s == store[chatId]
  {
    if chatId in store then store[chatId] else Models.NewSession(chatId, ConversationState.None)
  }

  // ---------------------------------------------------------------------
  // Replies that change no session

  /** `SendUnrecognizedMessageResponseAsync`: the Gemini answer when there is
      one, otherwise the state's reminder; the store and buffers stay. */
  function SendUnrecognized(env: Env, w: World, chatId: int, text: Option<string>, state: ConversationState): (w': World)
    ensures w'.store == w.store && w'.cache == w.cache
    ensures env.gemini(text, state).Some? ==> w'.outbox == w.outbox + [Telegram.Send(chatId, BotMessages.Text(env.gemini(text, state).value), BotKeyboards.NoMarkup)]
    ensures env.gemini(text, state).None? ==> w'.outbox == w.outbox + [Telegram.Send(chatId, BotMessages.Reminder(state), BotKeyboards.NoMarkup)]
    ensures Step(w, w', {})
  {
    match env.gemini(text, state)
    case Some(answer) => TellStep(w, chatId, answer); Tell(w, chatId, answer)
    case None =>
      SentStep(w, chatId, BotMessages.Reminder(state), BotKeyboards.NoMarkup);
      Sent(w, chatId, BotMessages.Reminder(state), BotKeyboards.NoMarkup)
  }

  function Unrecognized(env: Env, w: World, chatId: int, text: Option<string>, s: Session): (o: Outcome)
    ensures o == Outcome(SendUnrecognized(env, w, chatId, text, s.state), s, false)
  {
    Outcome(SendUnrecognized(env, w, chatId, text, s.state), s, false)
  }

  /** `RequestPriceConfirmationAsync`: the price of 100 with the accept and
      decline buttons. */
  function PriceRequested(w: World, chatId: int): World {
    Sent(w, chatId, BotMessages.PriceConfirmationPrompt(100), BotKeyboards.PriceConfirmationKeyboard)
  }

  lemma SentStep(w: World, chatId: int, body: BotMessages.Body, markup: BotKeyboards.Markup)
    ensures Step(w, Sent(w, chatId, body, markup), {})
  {
    assert Sent(w, chatId, body, markup).outbox[|w.outbox|..] == [Telegram.Send(chatId, body, markup)];
  }

  // ---------------------------------------------------------------------
  // Start

  /** `HandleStartCommandAsync`: drop the chat's pending pages and its stored
      session, store a fresh session awaiting the passport, and greet. */
  function Start(w: World, chatId: int): (w': World)
    ensures Repository.Lookup(w'.store, chatId) == Some(Models.NewSession(chatId, AwaitingPassport))
    ensures PagesOf(w'.cache, chatId) == Option.None
    ensures w'.outbox == w.outbox + [Telegram.Send(chatId, BotMessages.Plain(BotMessages.StartMessage), BotKeyboards.NoMarkup)]
    ensures Step(w, w', {chatId})
  {
    var cleared := w.(cache := w.cache - {chatId});
    var deleted := cleared.(store := cleared.store - {chatId});
    var added := deleted.(store := deleted.store[chatId := Models.NewSession(chatId, AwaitingPassport)]);
    var w' := Say(added, chatId, BotMessages.StartMessage);
    assert w'.outbox[|w.outbox|..] == [Telegram.Send(chatId, BotMessages.Plain(BotMessages.StartMessage), BotKeyboards.NoMarkup)];
    w'
  }

  // ---------------------------------------------------------------------
  // Manual entry

  /** Why a manual entry is refused: not five fields; a field that does not
      read as a date or year, or a date or year out of range (both a
      `FormatException`); a year too large for `int` (an
      `OverflowException`, which the handler does not catch). */
  datatype EntryError = WrongFieldCount | Unreadable | YearOverflow

  /** The validation of a typed passport: five `;`-separated fields, three
      dd.MM.yyyy dates, and the range checks against the current year. */
  function PassportEntry(text: string, currentYear: int): (r: Result<Models.PassportData, EntryError>)
    ensures r == Err(WrongFieldCount) <==> |ManualEntry.Fields(text)| != ManualEntry.FieldCount
    ensures r != Err(YearOverflow)
    ensures r.Ok? ==> ManualEntry.PassportDatesPlausible(r.value, currentYear)
    ensures r.Ok? ==>
      var f := ManualEntry.Fields(text);
      && |f| == ManualEntry.FieldCount
      && r.value.fullName == Some(f[0]) && r.value.passportNumber == Some(f[1])
      && Dates.IsValid(r.value.dateOfBirth) && Dates.Format(r.value.dateOfBirth) == f[2]
      && Dates.IsValid(r.value.issueDate) && Dates.Format(r.value.issueDate) == f[3]
      && Dates.IsValid(r.value.expiryDate) && Dates.Format(r.value.expiryDate) == f[4]
  {
    var f := ManualEntry.Fields(text);
    if |f| != ManualEntry.FieldCount then Err(WrongFieldCount)
    else match ManualEntry.PassportFromFields(f)
      case None => Err(Unreadable)
      case Some(p) => if ManualEntry.PassportDatesPlausible(p, currentYear) then Ok(p) else Err(Unreadable)
  }

  /** The validation of a typed vehicle: five fields and a year that
      `int.Parse` reads and that lies between 1900 and the current year. */
  function VehicleEntry(text: string, currentYear: int): (r: Result<Models.VehicleData, EntryError>)
    ensures r == Err(WrongFieldCount) <==> |ManualEntry.Fields(text)| != ManualEntry.FieldCount
    ensures r == Err(YearOverflow) <==>
      |ManualEntry.Fields(text)| == ManualEntry.FieldCount && Numbers.ParseInt32(ManualEntry.Fields(text)[3]) == Err(Numbers.OverflowError)
    ensures r.Ok? ==>
      var f := ManualEntry.Fields(text);
      && |f| == ManualEntry.FieldCount
      && r.value == Models.VehicleData(Some(f[0]), Some(f[1]), Some(f[2]), r.value.year, Some(f[4]))
      && r.value.year.Some? && Numbers.ParseInt32(f[3]) == Ok(r.value.year.value)
      && ManualEntry.VehicleYearPlausible(r.value.year.value, currentYear)
  {
    var f := ManualEntry.Fields(text);
    if |f| != ManualEntry.FieldCount then Err(WrongFieldCount)
    else match ManualEntry.VehicleFromFields(f)
      case Err(e) => if e == Numbers.OverflowError then Err(YearOverflow) else Err(Unreadable)
      case Ok(v) => if ManualEntry.VehicleYearPlausible(v.year.value, currentYear) then Ok(v) else Err(Unreadable)
  }

  /** `HandleManualPassportTextAsync`. */
  function ManualPassportText(env: Env, w: World, chatId: int, text: string, s: Session): (o: Outcome)
    ensures !o.fault && o.world.cache == w.cache
    ensures PassportEntry(text, env.currentYear).Ok? ==>
      && o.session == s.(passportData := Some(PassportEntry(text, env.currentYear).value), state := ConfirmingPassport)
      && o.world.store == Repository.Updated(w.store, o.session)
    ensures PassportEntry(text, env.currentYear).Err? ==> o.session == s && o.world.store == w.store
    ensures PassportEntry(text, env.currentYear) == Err(Unreadable) ==> o.world == Say(w, chatId, BotMessages.PassportDateParseError)
    ensures Step(w, o.world, {s.chatId})
  {
    match PassportEntry(text, env.currentYear)
    case Err(WrongFieldCount) => Unrecognized(env, w, chatId, Some(text), s)
    case Err(_) => SayStep(w, chatId, BotMessages.PassportDateParseError); Outcome(Say(w, chatId, BotMessages.PassportDateParseError), s, false)
    case Ok(p) =>
      var s1 := s.(passportData := Some(p), state := ConfirmingPassport);
      var w1 := Persisted(w, s1);
      var prompt := BotMessages.PassportDataConfirmationPrompt(p);
      PersistedStep(w, s1);
      SentStep(w1, chatId, prompt, BotKeyboards.PassportConfirmationKeyboard);
      StepTrans(w, w1, Sent(w1, chatId, prompt, BotKeyboards.PassportConfirmationKeyboard), {s.chatId}, {});
      Outcome(Sent(w1, chatId, prompt, BotKeyboards.PassportConfirmationKeyboard), s1, false)
  }

  /** `HandleManualVehicleTextAsync`; an overflowing year escapes as a fault. */
  function ManualVehicleText(env: Env, w: World, chatId: int, text: string, s: Session): (o: Outcome)
    ensures o.fault <==> VehicleEntry(text, env.currentYear) == Err(YearOverflow)
    ensures o.world.cache == w.cache
    ensures VehicleEntry(text, env.currentYear).Ok? ==>
      && o.session == s.(vehicleData := Some(VehicleEntry(text, env.currentYear).value), state := ConformingVehicleDoc)
      && o.world.store == Repository.Updated(w.store, o.session)
    ensures VehicleEntry(text, env.currentYear).Err? ==> o.session == s && o.world.store == w.store
    ensures VehicleEntry(text, env.currentYear) == Err(Unreadable) ==> o.world == Say(w, chatId, BotMessages.VehicleYearParseError)
    ensures o.fault ==> o.world == w
    ensures Step(w, o.world, {s.chatId})
  {
    match VehicleEntry(text, env.currentYear)
    case Err(WrongFieldCount) => Unrecognized(env, w, chatId, Some(text), s)
    case Err(YearOverflow) => Outcome(w, s, true)
    case Err(Unreadable) => SayStep(w, chatId, BotMessages.VehicleYearParseError); Outcome(Say(w, chatId, BotMessages.VehicleYearParseError), s, false)
    case Ok(v) =>
      var s1 := s.(vehicleData := Some(v), state := ConformingVehicleDoc);
      var w1 := Persisted(w, s1);
      var prompt := BotMessages.VehicleDataConfirmationPrompt(v);
      PersistedStep(w, s1);
      SentStep(w1, chatId, prompt, BotKeyboards.VehicleDocConfirmationKeyboard);
      StepTrans(w, w1, Sent(w1, chatId, prompt, BotKeyboards.VehicleDocConfirmationKeyboard), {s.chatId}, {});
      Outcome(Sent(w1, chatId, prompt, BotKeyboards.VehicleDocConfirmationKeyboard), s1, false)
  }

  // ---------------------------------------------------------------------
  // Photos and the pending-page buffer

  /** `HandlePassportPhotoAsync`: the session moves to ConfirmingPassport and
      is stored before extraction; a failed extraction keeps the passport. */
  function PassportPhoto(env: Env, w: World, chatId: int, photo: Telegram.Bytes, s: Session): (o: Outcome)
    ensures !o.fault && o.world.cache == w.cache
    ensures o.session == s.(state := ConfirmingPassport,
      passportData := if env.extractPassport(photo).Some? then env.extractPassport(photo) else s.passportData)
    ensures o.world.store == Repository.Updated(w.store, o.session)
    ensures |o.world.outbox| == |w.outbox| + 1
    ensures Step(w, o.world, {s.chatId})
  {
    var s1 := s.(state := ConfirmingPassport);
    var w1 := Persisted(w, s1);
    PersistedStep(w, s1);
    match env.extractPassport(photo)
    case None =>
      var w2 := Sent(w1, chatId, BotMessages.Plain(BotMessages.PassportExtractionFailed), BotKeyboards.PassportExtractionFailedKeyboard);
      SentStep(w1, chatId, BotMessages.Plain(BotMessages.PassportExtractionFailed), BotKeyboards.PassportExtractionFailedKeyboard);
      StepTrans(w, w1, w2, {s.chatId}, {});
      Outcome(w2, s1, false)
    case Some(p) =>
      var s2 := s1.(passportData := Some(p));
      var w2 := Persisted(w1, s2);
      var w3 := Sent(w2, chatId, BotMessages.PassportDataExtracted(p), BotKeyboards.PassportConfirmationKeyboard);
      Repository.UpdateSuperseded(w.store, s1, s2);
      PersistedStep(w, s2);
      SentStep(w2, chatId, BotMessages.PassportDataExtracted(p), BotKeyboards.PassportConfirmationKeyboard);
      StepTrans(w, w2, w3, {s.chatId}, {});
      Outcome(w3, s2, false)
  }

  /** Whether the chat has pages waiting to be read. */
  predicate HasPages(cache: Cache, chatId: int) {
    chatId in cache && |cache[chatId]| > 0
  }

  /** `ProcessVehicleDocumentAsync`: reads the chat's pending pages with the
      session's country, stores the vehicle on success, and drops the pages
      whether extraction succeeds or fails. */
  function DocumentRead(env: Env, w: World, s: Session): (o: Outcome)
    ensures !o.fault
    ensures !HasPages(w.cache, s.chatId) ==> o == Outcome(Say(w, s.chatId, BotMessages.ErrorOccurred), s, false)
    ensures HasPages(w.cache, s.chatId) ==>
      var r := env.extractVehicle(w.cache[s.chatId], s.countryCode);
      && o.world.cache == w.cache - {s.chatId}
      && o.session == (if r.Some? then s.(vehicleData := r, state := ConformingVehicleDoc) else s)
      && o.world.store == (if r.Some? then Repository.Updated(w.store, o.session) else w.store)
    ensures o.session == s || o.session.state == ConformingVehicleDoc
    ensures Step(w, o.world, {s.chatId})
  {
    if !HasPages(w.cache, s.chatId) then
      SayStep(w, s.chatId, BotMessages.ErrorOccurred);
      Outcome(Say(w, s.chatId, BotMessages.ErrorOccurred), s, false)
    else
      var pages := w.cache[s.chatId];
      match env.extractVehicle(pages, s.countryCode)
      case Some(v) =>
        var s1 := s.(vehicleData := Some(v), state := ConformingVehicleDoc);
        var w1 := Persisted(w, s1);
        var w2 := Sent(w1, s.chatId, BotMessages.VehicleDataConfirmationPrompt(v), BotKeyboards.VehicleDocConfirmationKeyboard);
        PersistedStep(w, s1);
        SentStep(w1, s.chatId, BotMessages.VehicleDataConfirmationPrompt(v), BotKeyboards.VehicleDocConfirmationKeyboard);
        StepTrans(w, w1, w2, {s.chatId}, {});
        Outcome(w2.(cache := w2.cache - {s.chatId}), s1, false)
      case None =>
        var w1 := Sent(w, s.chatId, BotMessages.Plain(BotMessages.VehicleFrontPhotoExtractionFailed),
          BotKeyboards.Undefined("VehicleExtractionFailedKeyboard"));
        SentStep(w, s.chatId, BotMessages.Plain(BotMessages.VehicleFrontPhotoExtractionFailed),
          BotKeyboards.Undefined("VehicleExtractionFailedKeyboard"));
        Outcome(w1.(cache := w1.cache - {s.chatId}), s, false)
  }

  /** `HandleVehicleFrontPhotoAsync`: the front page replaces whatever the
      chat had pending; the country profile decides whether to wait for a
      back page or to read the document now. A country the profiles cannot
      resolve escapes as a fault after the buffer was replaced. */
  function VehicleFrontPhoto(env: Env, w: World, chatId: int, photo: Telegram.Bytes, s: Session): (o: Outcome)
    ensures var cfg := MindeeSettings.GetForCountry(env.mindee, s.countryCode);
      && (cfg.Err? ==> o.fault && o.session == s && o.world == w.(cache := w.cache[chatId := [photo]]))
      && (cfg.Ok? && cfg.value.hasBackPage ==>
            && !o.fault && o.session == s.(state := AwaitingVehicleBack)
            && o.world.store == Repository.Updated(w.store, o.session)
            && o.world.cache == w.cache[chatId := [photo]])
      && (cfg.Ok? && !cfg.value.hasBackPage && s.chatId == chatId ==>
            var r := env.extractVehicle([photo], s.countryCode);
            && !o.fault && o.world.cache == w.cache - {chatId}
            && o.session == s.(state := ConformingVehicleDoc, vehicleData := if r.Some? then r else s.vehicleData)
            && o.world.store == Repository.Updated(w.store, o.session))
    ensures Step(w, o.world, {chatId, s.chatId})
  {
    var w1 := w.(cache := w.cache[chatId := [photo]]);
    match MindeeSettings.GetForCountry(env.mindee, s.countryCode)
    case Err(_) => Outcome(w1, s, true)
    case Ok(cfg) =>
      if cfg.hasBackPage then
        var s1 := s.(state := AwaitingVehicleBack);
        var w2 := Say(w1, s.chatId, BotMessages.AwaitingVehicleBackPhoto);
        SayStep(w1, s.chatId, BotMessages.AwaitingVehicleBackPhoto);
        PersistedStep(w2, s1);
        StepTrans(w, w1, w2, {chatId}, {});
        StepTrans(w, w2, Persisted(w2, s1), {chatId}, {s.chatId});
        Outcome(Persisted(w2, s1), s1, false)
      else
        FrontPageRead(env, w, w1, s, {chatId, s.chatId})
  }

  /** A registration without a back page: the pending pages are read at
      once and the session is stored as ConformingVehicleDoc, extracted or
      not. */
  function FrontPageRead(env: Env, w: World, w1: World, s: Session, chats: set<int>): (o: Outcome)
    requires w1.store == w.store && s.chatId in chats && Step(w, w1, chats)
    ensures HasPages(w1.cache, s.chatId) ==>
      var r := env.extractVehicle(w1.cache[s.chatId], s.countryCode);
      && o.world.cache == w1.cache - {s.chatId}
      && o.session == s.(state := ConformingVehicleDoc, vehicleData := if r.Some? then r else s.vehicleData)
      && o.world.store == Repository.Updated(w.store, o.session)
    ensures !o.fault && Step(w, o.world, chats)
  {
    var s1 := s.(state := ConformingVehicleDoc);
    var o := DocumentRead(env, w1, s1);
    PersistedStep(o.world, o.session);
    StepTrans(w, w1, o.world, chats, {s.chatId});
    StepTrans(w, o.world, Persisted(o.world, o.session), chats + {s.chatId}, {s.chatId});
    assert chats + {s.chatId} + {s.chatId} == chats;
    Repository.UpdateIdempotent(w.store, o.session);
    Outcome(Persisted(o.world, o.session), o.session, o.fault)
  }

  /** `HandleVehicleBackPhotoAsync`: the back page is appended to the chat's
      pending pages and the document is read; without a pending front page
      the chat gets an error and nothing else changes. */
  function VehicleBackPhoto(env: Env, w: World, chatId: int, photo: Telegram.Bytes, s: Session): (o: Outcome)
    ensures !o.fault
    ensures chatId !in w.cache ==> o == Outcome(Say(w, chatId, BotMessages.ErrorOccurred), s, false)
    ensures chatId in w.cache && s.chatId == chatId ==>
      var r := env.extractVehicle(w.cache[chatId] + [photo], s.countryCode);
      && o.world.cache == w.cache - {chatId}
      && o.session == s.(state := ConformingVehicleDoc, vehicleData := if r.Some? then r else s.vehicleData)
      && o.world.store == Repository.Updated(w.store, o.session)
    ensures Step(w, o.world, {chatId, s.chatId})
  {
    if chatId !in w.cache then
      SayStep(w, chatId, BotMessages.ErrorOccurred);
      Outcome(Say(w, chatId, BotMessages.ErrorOccurred), s, false)
    else
      var w1 := w.(cache := w.cache[chatId := w.cache[chatId] + [photo]]);
      var s1 := s.(state := ConformingVehicleDoc);
      var w2 := Persisted(w1, s1);
      PersistedStep(w1, s1);
      StepTrans(w, w1, w2, {chatId}, {s.chatId});
      var o := DocumentRead(env, w2, s1);
      StepTrans(w, w2, o.world, {chatId, s.chatId}, {s.chatId});
      Repository.UpdateSuperseded(w1.store, s1, o.session);
      o
  }

  // ---------------------------------------------------------------------
  // Button presses

  /** The passport confirmation table. */
  function PassportTable(a: Callbacks.Action): Option<ConversationState> {
    match a
    case RetryPassport => Some(AwaitingPassport)
    case ManualPassport => Some(EnteringPassportData)
    case ConfirmPassport => Some(AwaAwaitingVehicleCountry)
    case _ => Option.None
  }

  /** The vehicle confirmation table, shared by the three confirming states. */
  function VehicleTable(a: Callbacks.Action): Option<ConversationState> {
    match a
    case RetryVehicleFront => Some(AwaitingVehicleFront)
    case ConfirmVehicleFront => Some(AwaitingVehicleBack)
    case RetryVehicleBack => Some(AwaitingVehicleBack)
    case ConfirmVehicleBack => Some(ConformingVehicleDoc)
    case ConfirmVehicleDoc => Some(AwaitingPriceConfirmation)
    case ManualVehicle => Some(EnteringVehicleData)
    case _ => Option.None
  }

  /** The price table; `restart` starts a fresh session awaiting the
      passport. */
  function PriceTable(a: Callbacks.Action): Option<ConversationState> {
    match a
    case Restart => Some(AwaitingPassport)
    case AgreePrice => Some(GeneratingPolicy)
    case DeclinePrice => Some(AwaitingPriceConfirmation)
    case _ => Option.None
  }

  /** The state a button press moves a session to, by the state it is in;
      `None` where the press is answered as invalid or changes no state. */
  function CallbackTarget(state: ConversationState, a: Callbacks.Action): Option<ConversationState> {
    match state
    case ConfirmingPassport => PassportTable(a)
    case ConfirmingVehicleDocFront => VehicleTable(a)
    case ConfirmingVehicleDocBack => VehicleTable(a)
    case ConformingVehicleDoc => VehicleTable(a)
    case AwaitingPriceConfirmation => PriceTable(a)
    case _ => Option.None
  }

  /** `HandlePassportConfirmationCallbacks`. */
  function PassportConfirmationCallbacks(w: World, data: Option<string>, chatId: int, s: Session): (o: Outcome)
    ensures !o.fault && o.world.cache == w.cache
    ensures var t := PassportTable(Callbacks.Decode(data));
      && (t.Some? ==> o.session == s.(state := t.value) && o.world.store == Repository.Updated(w.store, o.session))
      && (t.None? ==> o == Outcome(Say(w, chatId, BotMessages.InvalidActionContext), s, false))
    ensures Step(w, o.world, {s.chatId})
  {
    var a := Callbacks.Decode(data);
    if a == Callbacks.Other || !(a.RetryPassport? || a.ManualPassport? || a.ConfirmPassport?) then
      SayStep(w, chatId, BotMessages.InvalidActionContext);
      Outcome(Say(w, chatId, BotMessages.InvalidActionContext), s, false)
    else
      var s1 := s.(state := PassportTable(a).value);
      var w1 := Persisted(w, s1);
      PersistedStep(w, s1);
      var w2 :=
        if a.RetryPassport? then Say(w1, chatId, BotMessages.AwaitingPassportPhoto)
        else if a.ManualPassport? then Say(w1, chatId, BotMessages.ManualPassportDataPrompt)
        else Sent(w1, chatId, BotMessages.Plain(BotMessages.PassportConfirmedPromptVehicleFront), BotKeyboards.Undefined("VehicleCountry"));
      assert w2.outbox[|w1.outbox|..] == [w2.outbox[|w1.outbox|]];
      StepTrans(w, w1, w2, {s.chatId}, {});
      Outcome(w2, s1, false)
  }

  /** The country code a country button carries: the piece after the first
      `_`; a payload without `_` (or no payload) throws. */
  function CountryToken(data: Option<string>): (r: Option<string>)
    ensures r.None? <==> data.None? || '_' !in data.value
    ensures r.Some? ==> '_' !in r.value
  {
    if data.None? then Option.None
    else
      var parts := Text.Split(data.value, '_');
      Text.CountZero(data.value, '_');
      if |parts| < 2 then Option.None else Some(parts[1])
  }

  /** A payload `prefix_code` carries `code`. */
  lemma CountryTokenOf(prefix: string, code: string)
    requires '_' !in prefix && '_' !in code
    ensures CountryToken(Some(prefix + "_" + code)) == Some(code)
  {
    Text.SplitOfJoin([prefix, code], '_');
    assert Text.Join([prefix, code], '_') == prefix + "_" + code by {
      assert [prefix, code][1..] == [code];
    }
  }

  /** The country step: store the code and ask for the front page. */
  function CountryCallback(w: World, data: Option<string>, chatId: int, s: Session): (o: Outcome)
    ensures o.fault <==> CountryToken(data).None?
    ensures o.fault ==> o.world == w && o.session == s
    ensures !o.fault ==>
      && o.session == s.(countryCode := CountryToken(data), state := AwaitingVehicleFront)
      && o.world == Say(Persisted(w, o.session), chatId, BotMessages.AwaitingVehicleFrontPhoto)
    ensures Step(w, o.world, {s.chatId})
  {
    match CountryToken(data)
    case None => Outcome(w, s, true)
    case Some(code) =>
      var s1 := s.(countryCode := Some(code), state := AwaitingVehicleFront);
      var w1 := Persisted(w, s1);
      PersistedStep(w, s1);
      SayStep(w1, chatId, BotMessages.AwaitingVehicleFrontPhoto);
      StepTrans(w, w1, Say(w1, chatId, BotMessages.AwaitingVehicleFrontPhoto), {s.chatId}, {});
      Outcome(Say(w1, chatId, BotMessages.AwaitingVehicleFrontPhoto), s1, false)
  }

  /** `HandleVehicleConfirmationCallbacks`; confirming the back page without
      a vehicle record throws while building the summary, after the new
      state was stored. */
  function VehicleConfirmationCallbacks(w: World, data: Option<string>, chatId: int, s: Session): (o: Outcome)
    ensures o.world.cache == w.cache
    ensures o.fault <==> Callbacks.Decode(data) == Callbacks.ConfirmVehicleBack && s.vehicleData.None?
    ensures var t := VehicleTable(Callbacks.Decode(data));
      && (t.Some? ==> o.session == s.(state := t.value) && o.world.store == Repository.Updated(w.store, o.session))
      && (t.None? ==> o == Outcome(Say(w, chatId, BotMessages.InvalidActionContext), s, false))
    ensures Step(w, o.world, {s.chatId})
  {
    var a := Callbacks.Decode(data);
    match VehicleTable(a)
    case None =>
      SayStep(w, chatId, BotMessages.InvalidActionContext);
      Outcome(Say(w, chatId, BotMessages.InvalidActionContext), s, false)
    case Some(next) =>
      var s1 := s.(state := next);
      var w1 := Persisted(w, s1);
      PersistedStep(w, s1);
      if a.ConfirmVehicleBack? && s1.vehicleData.None? then
        Outcome(w1, s1, true)
      else
        var w2 :=
          if a.RetryVehicleFront? then Say(w1, chatId, BotMessages.AwaitingVehicleFrontPhoto)
          else if a.ConfirmVehicleFront? then Say(w1, chatId, BotMessages.VehicleFrontConfirmedPromptVehicleBack)
          else if a.RetryVehicleBack? then Say(w1, chatId, BotMessages.AwaitingVehicleBackPhoto)
          else if a.ConfirmVehicleBack? then
            Sent(w1, chatId, BotMessages.VehicleDataConfirmationPrompt(s1.vehicleData.value), BotKeyboards.VehicleDocConfirmationKeyboard)
          else if a.ConfirmVehicleDoc? then PriceRequested(w1, chatId)
          else Say(w1, chatId, BotMessages.ManualVehicleDataPrompt);
        assert w2.outbox[|w1.outbox|..] == [w2.outbox[|w1.outbox|]];
        StepTrans(w, w1, w2, {s.chatId}, {});
        Outcome(w2, s1, false)
  }

  /** Whether the session holds both records a policy needs. */
  predicate Complete(s: Session) {
    s.passportData.Some? && s.vehicleData.Some?
  }

  /** `GenerateAndSendPolicyAsync`: with both records and a delivered
      document the session is completed; otherwise it stays where it was. */
  function PolicyGenerated(env: Env, w: World, chatId: int, s: Session): (o: Outcome)
    ensures !o.fault && o.world.cache == w.cache
    ensures Complete(s) && env.policySent ==>
      && o.session == s.(state := Completed)
      && o.world.store == Repository.Updated(w.store, o.session)
      && |w.outbox| <= |o.world.outbox| && Telegram.SendDocument(chatId) in o.world.outbox[|w.outbox|..]
    ensures !Complete(s) ==> o == Outcome(Say(w, chatId, BotMessages.MissingPolicyDataError), s, false)
    ensures Complete(s) && !env.policySent ==> o == Outcome(Say(w, chatId, BotMessages.ErrorOccurred), s, false)
    ensures s.chatId == chatId ==> Step(w, o.world, {s.chatId})
  {
    if !Complete(s) then
      SayStep(w, chatId, BotMessages.MissingPolicyDataError);
      Outcome(Say(w, chatId, BotMessages.MissingPolicyDataError), s, false)
    else if !env.policySent then
      SayStep(w, chatId, BotMessages.ErrorOccurred);
      Outcome(Say(w, chatId, BotMessages.ErrorOccurred), s, false)
    else
      var w1 := w.(outbox := w.outbox + [Telegram.SendDocument(chatId)]);
      var s1 := s.(state := Completed);
      var w2 := Persisted(w1, s1);
      var w3 := Sent(w2, chatId, BotMessages.PolicyGenerationSuccess, BotKeyboards.NoMarkup);
      assert w3.outbox[|w.outbox|..] == [Telegram.SendDocument(chatId), Telegram.Send(chatId, BotMessages.PolicyGenerationSuccess, BotKeyboards.NoMarkup)];
      assert Repository.KeysMatch(w.store) ==> Repository.KeysMatch(w2.store) by {
        if Repository.KeysMatch(w.store) {
          Repository.UpdateKeepsKeysMatch(w.store, s1);
        }
      }
      Outcome(w3, s1, false)
  }

  /** `HandlePriceConfirmationCallbacks`. */
  function PriceConfirmationCallbacks(env: Env, w: World, data: Option<string>, chatId: int, s: Session): (o: Outcome)
    ensures !o.fault
    ensures var a := Callbacks.Decode(data);
      && (a == Callbacks.Restart ==> o.world == Start(w, chatId) && o.session == s)
      && (a == Callbacks.AgreePrice ==>
            && o.session == s.(state := if Complete(s) && env.policySent then Completed else GeneratingPolicy)
            && o.world.store == Repository.Updated(w.store, o.session)
            && o.world.cache == w.cache)
      && (a == Callbacks.DeclinePrice ==>
            && o.session == s.(state := AwaitingPriceConfirmation)
            && o.world.store == Repository.Updated(w.store, o.session)
            && o.world.cache == w.cache)
      && (PriceTable(a).None? ==> o == Outcome(Say(w, chatId, BotMessages.InvalidActionContext), s, false))
    ensures s.chatId == chatId ==> Step(w, o.world, {chatId})
  {
    match Callbacks.Decode(data)
    case Restart => Outcome(Start(w, chatId), s, false)
    case AgreePrice =>
      var s1 := s.(state := GeneratingPolicy);
      var w1 := Persisted(w, s1);
      PersistedStep(w, s1);
      var o := PolicyGenerated(env, w1, chatId, s1);
      assert s.chatId == chatId ==> Step(w, o.world, {chatId}) by {
        if s.chatId == chatId {
          StepTrans(w, w1, o.world, {s.chatId}, {s.chatId});
        }
      }
      Repository.UpdateSuperseded(w.store, s1, o.session);
      o
    case DeclinePrice =>
      var s1 := s.(state := AwaitingPriceConfirmation);
      var w1 := Persisted(w, s1);
      PersistedStep(w, s1);
      SentStep(w1, chatId, BotMessages.Plain(BotMessages.DeclinedPriceOffer), BotKeyboards.DeclinedPriceOfferKeyboard);
      var w2 := Sent(w1, chatId, BotMessages.Plain(BotMessages.DeclinedPriceOffer), BotKeyboards.DeclinedPriceOfferKeyboard);
      StepTrans(w, w1, w2, {s.chatId}, {});
      Outcome(w2, s1, false)
    case _ =>
      SayStep(w, chatId, BotMessages.InvalidActionContext);
      Outcome(Say(w, chatId, BotMessages.InvalidActionContext), s, false)
  }

  // ---------------------------------------------------------------------
  // Dispatch

  /** `HandleMessageUpdateAsync`. */
  function MessageUpdate(env: Env, w: World, m: Telegram.Message, s: Session): (o: Outcome)
    ensures s.chatId == m.chatId ==> Step(w, o.world, {m.chatId})
  {
    var chatId := m.chatId;
    match s.state
    case AwaitingPassport =>
      if Telegram.HasPhoto(m) then PassportPhoto(env, w, chatId, m.photo.value, s)
      else Unrecognized(env, w, chatId, m.text, s)
    case EnteringPassportData =>
      if !Telegram.IsNullOrEmpty(m.text) then ManualPassportText(env, w, chatId, m.text.value, s)
      else Unrecognized(env, w, chatId, m.text, s)
    case AwaitingVehicleFront =>
      if Telegram.HasPhoto(m) then VehicleFrontPhoto(env, w, chatId, m.photo.value, s)
      else Unrecognized(env, w, chatId, m.text, s)
    case AwaitingVehicleBack =>
      if Telegram.HasPhoto(m) then VehicleBackPhoto(env, w, chatId, m.photo.value, s)
      else Unrecognized(env, w, chatId, m.text, s)
    case EnteringVehicleData =>
      if !Telegram.IsNullOrEmpty(m.text) then ManualVehicleText(env, w, chatId, m.text.value, s)
      else Unrecognized(env, w, chatId, m.text, s)
    case AwaitingPriceConfirmation =>
      if Telegram.IsNullOrEmpty(m.text) then
        SentStep(w, chatId, BotMessages.PriceConfirmationPrompt(100), BotKeyboards.PriceConfirmationKeyboard);
        Outcome(PriceRequested(w, chatId), s, false)
      else Unrecognized(env, w, chatId, m.text, s)
    case Completed =>
      SayStep(w, chatId, BotMessages.PolicyAlreadyIssued);
      Outcome(Say(w, chatId, BotMessages.PolicyAlreadyIssued), s, false)
    case _ => Unrecognized(env, w, chatId, m.text, s)
  }

  /** `HandleCallbackQueryUpdateAsync`. */
  function CallbackQueryUpdate(env: Env, w: World, data: Option<string>, chatId: int, s: Session): (o: Outcome)
    ensures s.chatId == chatId ==> Step(w, o.world, {chatId})
  {
    match s.state
    case ConfirmingPassport => PassportConfirmationCallbacks(w, data, chatId, s)
    case AwaAwaitingVehicleCountry => CountryCallback(w, data, chatId, s)
    case ConfirmingVehicleDocFront => VehicleConfirmationCallbacks(w, data, chatId, s)
    case ConfirmingVehicleDocBack => VehicleConfirmationCallbacks(w, data, chatId, s)
    case ConformingVehicleDoc => VehicleConfirmationCallbacks(w, data, chatId, s)
    case AwaitingPriceConfirmation => PriceConfirmationCallbacks(env, w, data, chatId, s)
    case Completed =>
      SayStep(w, chatId, BotMessages.PolicyAlreadyIssued);
      Outcome(Say(w, chatId, BotMessages.PolicyAlreadyIssued), s, false)
    case _ =>
      SayStep(w, chatId, BotMessages.InvalidActionContext);
      Outcome(Say(w, chatId, BotMessages.InvalidActionContext), s, false)
  }

  /** The handler's `catch`: for a message whose chat has a stored session,
      the Gemini answer to the text in that session's state; otherwise (a
      button press, no stored session, no answer) the generic error. */
  function Recover(env: Env, w: World, u: Telegram.Update, chatId: int): (w': World)
    ensures w'.store == w.store && w'.cache == w.cache && Step(w, w', {})
  {
    var stored := Repository.Lookup(w.store, chatId);
    if stored.Some? && u.MessageUpdate? && env.gemini(u.message.text, stored.value.state).Some? then
      var answer := env.gemini(u.message.text, stored.value.state).value;
      TellStep(w, chatId, answer);
      Tell(w, chatId, answer)
    else
      SayStep(w, chatId, BotMessages.ErrorOccurred);
      Say(w, chatId, BotMessages.ErrorOccurred)
  }

  function Answered(w: World): World {
    w.(outbox := w.outbox + [Telegram.AnswerCallbackQuery])
  }

  /** `HandleUpdateAsync`: one update, from the world before to the world
      after. An update without a chat is ignored; `/start` resets; otherwise
      the message or button press is dispatched on the session's state, a
      button press being acknowledged first, and an escaping exception is
      answered by `Recover`. */
  function Handled(env: Env, w: World, u: Telegram.Update): (w': World)
    ensures Repository.KeysMatch(w.store) ==> Step(w, w', {Telegram.ChatIdOf(u)})
  {
    var chatId := Telegram.ChatIdOf(u);
    if chatId == 0 then w
    else if Telegram.IsStartCommand(Telegram.TextOf(u)) then Start(w, chatId)
    else
      var s := SessionFor(w.store, chatId);
      var o :=
        if u.MessageUpdate? then MessageUpdate(env, w, u.message, s)
        else CallbackQueryUpdate(env, Answered(w), u.query.data, chatId, s);
      assert s.chatId == chatId ==> Step(w, o.world, {chatId}) by {
        if u.CallbackQueryUpdate? && s.chatId == chatId {
          assert Answered(w).outbox[|w.outbox|..] == [Telegram.AnswerCallbackQuery];
          StepTrans(w, Answered(w), o.world, {}, {chatId});
        }
      }
      if o.fault then
        var w' := Recover(env, o.world, u, chatId);
        assert s.chatId == chatId ==> Step(w, w', {chatId}) by {
          if s.chatId == chatId {
            StepTrans(w, o.world, w', {chatId}, {});
          }
        }
        w'
      else o.world
  }

  // ---------------------------------------------------------------------
  // Properties of whole updates

  /** `/start`, in any state, leaves a fresh session awaiting the passport,
      no pending pages and exactly the greeting; other chats are untouched. */
  lemma StartResets(env: Env, w: World, u: Telegram.Update)
    requires Telegram.ChatIdOf(u) != 0 && Telegram.IsStartCommand(Telegram.TextOf(u))
    ensures var c, w' := Telegram.ChatIdOf(u), Handled(env, w, u);
      && Repository.Lookup(w'.store, c) == Some(Models.NewSession(c, AwaitingPassport))
      && PagesOf(w'.cache, c) == Option.None
      && w'.outbox == w.outbox + [Telegram.Send(c, BotMessages.Plain(BotMessages.StartMessage), BotKeyboards.NoMarkup)]
      && (forall k :: k != c ==> Repository.Lookup(w'.store, k) == Repository.Lookup(w.store, k))
  {
  }

  /** A session is completed only by an update that sends its chat the
      policy document. */
  lemma CompletedOnlyAfterIssuance(env: Env, w: World, u: Telegram.Update, k: int)
    requires Repository.KeysMatch(w.store)
    requires StateOf(w.store, k) != Some(Completed)
    requires StateOf(Handled(env, w, u).store, k) == Some(Completed)
    ensures Telegram.SendDocument(k) in Handled(env, w, u).outbox[|w.outbox|..]
  {
    var w' := Handled(env, w, u);
    assert k in Completions(w'.store) - Completions(w.store);
    Telegram.DocumentChatsMember(w'.outbox[|w.outbox|..], k);
  }

  /** Once completed, every message and button press (other than `/start`)
      is answered "already issued" and changes nothing. */
  lemma CompletedAnswersAlreadyIssued(env: Env, w: World, u: Telegram.Update)
    requires Telegram.ChatIdOf(u) != 0 && !Telegram.IsStartCommand(Telegram.TextOf(u))
    requires Repository.KeysMatch(w.store) && StateOf(w.store, Telegram.ChatIdOf(u)) == Some(Completed)
    ensures var c, w' := Telegram.ChatIdOf(u), Handled(env, w, u);
      && w'.store == w.store && w'.cache == w.cache
      && w'.outbox == w.outbox + (if u.CallbackQueryUpdate? then [Telegram.AnswerCallbackQuery] else [])
                              + [Telegram.Send(c, BotMessages.Plain(BotMessages.PolicyAlreadyIssued), BotKeyboards.NoMarkup)]
  {
  }

  /** A typed passport is stored, with the state ConfirmingPassport, exactly
      when it passes validation; otherwise the store and buffers stay. */
  lemma ManualPassportUpdate(env: Env, w: World, m: Telegram.Message)
    requires m.chatId != 0 && Repository.KeysMatch(w.store)
    requires StateOf(w.store, m.chatId) == Some(EnteringPassportData)
    requires m.text.Some? && m.text.value != [] && !Telegram.IsStartCommand(m.text)
    ensures var c, w', r := m.chatId, Handled(env, w, Telegram.MessageUpdate(m)), PassportEntry(m.text.value, env.currentYear);
      && w'.cache == w.cache
      && (r.Ok? ==> w'.store == w.store[c := w.store[c].(state := ConfirmingPassport, passportData := Some(r.value))])
      && (r.Err? ==> w'.store == w.store)
  {
    ManualPassportDispatch(env, w, m);
    ManualPassportEffect(env, w, m);
  }

  /** What the passport handler does to the stored session. */
  lemma ManualPassportEffect(env: Env, w: World, m: Telegram.Message)
    requires Repository.KeysMatch(w.store)
    requires StateOf(w.store, m.chatId) == Some(EnteringPassportData)
    requires m.text.Some?
    ensures var c, r := m.chatId, PassportEntry(m.text.value, env.currentYear);
      var w' := ManualPassportText(env, w, c, m.text.value, w.store[c]).world;
      && w'.cache == w.cache
      && (r.Ok? ==> w'.store == w.store[c := w.store[c].(state := ConfirmingPassport, passportData := Some(r.value))])
      && (r.Err? ==> w'.store == w.store)
  {
    var c, r := m.chatId, PassportEntry(m.text.value, env.currentYear);
    if r.Ok? {
      Repository.UpdateWithChangedRecord(w.store, w.store[c].(state := ConfirmingPassport, passportData := Some(r.value)));
    }
  }

  lemma ManualPassportDispatch(env: Env, w: World, m: Telegram.Message)
    requires m.chatId != 0 && Repository.KeysMatch(w.store)
    requires StateOf(w.store, m.chatId) == Some(EnteringPassportData)
    requires m.text.Some? && m.text.value != [] && !Telegram.IsStartCommand(m.text)
    ensures Handled(env, w, Telegram.MessageUpdate(m)) == ManualPassportText(env, w, m.chatId, m.text.value, w.store[m.chatId]).world
  {
    var s := w.store[m.chatId];
    assert SessionFor(w.store, m.chatId) == s;
    HandleMessage(env, w, m);
    MessageToManualPassport(env, w, m, s);
  }

  lemma MessageToManualPassport(env: Env, w: World, m: Telegram.Message, s: Session)
    requires s.state == EnteringPassportData
    requires m.text.Some? && m.text.value != []
    ensures MessageUpdate(env, w, m, s) == ManualPassportText(env, w, m.chatId, m.text.value, s)
  {
  }

  /** A typed vehicle is stored wholesale, with the state
      ConformingVehicleDoc, exactly when it passes validation; a year beyond
      `int` escapes to the handler's `catch`, which changes nothing but the
      reply. */
  lemma ManualVehicleUpdate(env: Env, w: World, m: Telegram.Message)
    requires m.chatId != 0 && Repository.KeysMatch(w.store)
    requires StateOf(w.store, m.chatId) == Some(EnteringVehicleData)
    requires m.text.Some? && m.text.value != [] && !Telegram.IsStartCommand(m.text)
    ensures var c, w', r := m.chatId, Handled(env, w, Telegram.MessageUpdate(m)), VehicleEntry(m.text.value, env.currentYear);
      && w'.cache == w.cache
      && (r.Ok? ==> w'.store == w.store[c := w.store[c].(state := ConformingVehicleDoc, vehicleData := Some(r.value))])
      && (r.Err? ==> w'.store == w.store)
      && (r == Err(YearOverflow) ==>
            var answer := env.gemini(m.text, EnteringVehicleData);
            w'.outbox == w.outbox + [Telegram.Send(c, (if answer.Some? then BotMessages.Text(answer.value) else BotMessages.Plain(BotMessages.ErrorOccurred)), BotKeyboards.NoMarkup)])
  {
    ManualVehicleDispatch(env, w, m);
    ManualVehicleEffect(env, w, m);
  }

  /** What the vehicle handler and, on a fault, the `catch` do together. */
  lemma ManualVehicleEffect(env: Env, w: World, m: Telegram.Message)
    requires m.chatId != 0 && Repository.KeysMatch(w.store)
    requires StateOf(w.store, m.chatId) == Some(EnteringVehicleData)
    requires m.text.Some? && m.text.value != []
    ensures var c, r := m.chatId, VehicleEntry(m.text.value, env.currentYear);
      var o := ManualVehicleText(env, w, c, m.text.value, w.store[c]);
      var w' := if o.fault then Recover(env, o.world, Telegram.MessageUpdate(m), c) else o.world;
      && w'.cache == w.cache
      && (r.Ok? ==> w'.store == w.store[c := w.store[c].(state := ConformingVehicleDoc, vehicleData := Some(r.value))])
      && (r.Err? ==> w'.store == w.store)
      && (r == Err(YearOverflow) ==>
            var answer := env.gemini(m.text, EnteringVehicleData);
            w'.outbox == w.outbox + [Telegram.Send(c, (if answer.Some? then BotMessages.Text(answer.value) else BotMessages.Plain(BotMessages.ErrorOccurred)), BotKeyboards.NoMarkup)])
  {
    var c, u := m.chatId, Telegram.MessageUpdate(m);
    var o := ManualVehicleText(env, w, c, m.text.value, w.store[c]);
    if o.fault {
      var answer := env.gemini(m.text, EnteringVehicleData);
      assert Recover(env, w, u, c) == if answer.Some? then Tell(w, c, answer.value) else Say(w, c, BotMessages.ErrorOccurred);
    }
  }

  lemma ManualVehicleDispatch(env: Env, w: World, m: Telegram.Message)
    requires m.chatId != 0 && Repository.KeysMatch(w.store)
    requires StateOf(w.store, m.chatId) == Some(EnteringVehicleData)
    requires m.text.Some? && m.text.value != [] && !Telegram.IsStartCommand(m.text)
    ensures var o := ManualVehicleText(env, w, m.chatId, m.text.value, w.store[m.chatId]);
      Handled(env, w, Telegram.MessageUpdate(m)) ==
        if o.fault then Recover(env, o.world, Telegram.MessageUpdate(m), m.chatId) else o.world
  {
    var s := w.store[m.chatId];
    assert SessionFor(w.store, m.chatId) == s;
    HandleMessage(env, w, m);
    MessageToManualVehicle(env, w, m, s);
  }

  lemma MessageToManualVehicle(env: Env, w: World, m: Telegram.Message, s: Session)
    requires s.state == EnteringVehicleData
    requires m.text.Some? && m.text.value != []
    ensures MessageUpdate(env, w, m, s) == ManualVehicleText(env, w, m.chatId, m.text.value, s)
  {
  }

  /** How `HandleUpdate` treats a message that is not `/start`. */
  lemma HandleMessage(env: Env, w: World, m: Telegram.Message)
    requires m.chatId != 0 && !Telegram.IsStartCommand(m.text)
    ensures var u := Telegram.MessageUpdate(m);
      var o := MessageUpdate(env, w, m, SessionFor(w.store, m.chatId));
      Handled(env, w, u) == if o.fault then Recover(env, o.world, u, m.chatId) else o.world
  {
  }

  /** How `HandleUpdate` treats a button press on a message of a chat. */
  lemma HandleCallback(env: Env, w: World, q: Telegram.CallbackQuery)
    requires q.chat.Some? && q.chat.value != 0
    ensures var u, c := Telegram.CallbackQueryUpdate(q), q.chat.value;
      var o := CallbackQueryUpdate(env, Answered(w), q.data, c, SessionFor(w.store, c));
      Handled(env, w, u) == if o.fault then Recover(env, o.world, u, c) else o.world
  {
  }

  /** What a user types in the documented format is what gets stored. */
  lemma PassportLineAccepted(env: Env, w: World, chatId: int, p: Models.PassportData, s: Session)
    requires p.fullName.Some? && ManualEntry.IsField(p.fullName.value)
    requires p.passportNumber.Some? && ManualEntry.IsField(p.passportNumber.value)
    requires Dates.IsValid(p.dateOfBirth) && Dates.IsValid(p.issueDate) && Dates.IsValid(p.expiryDate)
    requires ManualEntry.PassportDatesPlausible(p, env.currentYear)
    ensures ManualPassportText(env, w, chatId, ManualEntry.PassportLine(p), s).session
      == s.(passportData := Some(p), state := ConfirmingPassport)
  {
    ManualEntry.PassportLineRoundTrip(p);
  }

  lemma VehicleLineAccepted(env: Env, w: World, chatId: int, v: Models.VehicleData, s: Session)
    requires v.vin.Some? && ManualEntry.IsField(v.vin.value)
    requires v.make.Some? && ManualEntry.IsField(v.make.value)
    requires v.model.Some? && ManualEntry.IsField(v.model.value)
    requires env.currentYear <= 9999
    requires v.year.Some? && ManualEntry.VehicleYearPlausible(v.year.value, env.currentYear)
    requires v.registrationNumber.Some? && ManualEntry.IsField(v.registrationNumber.value)
    ensures ManualVehicleText(env, w, chatId, ManualEntry.VehicleLine(v), s).session
      == s.(vehicleData := Some(v), state := ConformingVehicleDoc)
  {
    ManualEntry.VehicleLineRoundTrip(v);
  }

  /** A passport photo stores ConfirmingPassport whatever extraction does,
      and replaces the passport only with an extracted one. */
  lemma PassportPhotoUpdate(env: Env, w: World, m: Telegram.Message)
    requires m.chatId != 0 && Repository.KeysMatch(w.store)
    requires StateOf(w.store, m.chatId) == Some(AwaitingPassport)
    requires Telegram.HasPhoto(m) && !Telegram.IsStartCommand(m.text)
    ensures var c, w', r := m.chatId, Handled(env, w, Telegram.MessageUpdate(m)), env.extractPassport(m.photo.value);
      && w'.cache == w.cache
      && w'.store == w.store[c := w.store[c].(state := ConfirmingPassport,
                                              passportData := if r.Some? then r else w.store[c].passportData)]
  {
  }

  /** In the passport and vehicle confirmation states a button press stores
      the state the table names, and any other press is answered as invalid
      and changes nothing. */
  lemma ConfirmationCallbackUpdate(env: Env, w: World, q: Telegram.CallbackQuery)
    requires q.chat.Some? && q.chat.value != 0 && Repository.KeysMatch(w.store)
    requires StateOf(w.store, q.chat.value) in
      {Some(ConfirmingPassport), Some(ConfirmingVehicleDocFront), Some(ConfirmingVehicleDocBack), Some(ConformingVehicleDoc)}
    ensures var c, w' := q.chat.value, Handled(env, w, Telegram.CallbackQueryUpdate(q));
      var t := CallbackTarget(w.store[c].state, Callbacks.Decode(q.data));
      && w'.cache == w.cache
      && (t.Some? ==> w'.store == w.store[c := w.store[c].(state := t.value)])
      && (t.None? ==> w'.store == w.store && w'.outbox == w.outbox + [Telegram.AnswerCallbackQuery,
            Telegram.Send(c, BotMessages.Plain(BotMessages.InvalidActionContext), BotKeyboards.NoMarkup)])
  {
  }

  /** In AwaitingPriceConfirmation: `restart` starts over, `agreePrice`
      completes the session exactly when both records are present and the
      document was delivered (otherwise it stays in GeneratingPolicy), and
      `declinePrice` keeps the offer open. */
  lemma PriceCallbackUpdate(env: Env, w: World, q: Telegram.CallbackQuery)
    requires q.chat.Some? && q.chat.value != 0 && Repository.KeysMatch(w.store)
    requires StateOf(w.store, q.chat.value) == Some(AwaitingPriceConfirmation)
    ensures var c, w', a := q.chat.value, Handled(env, w, Telegram.CallbackQueryUpdate(q)), Callbacks.Decode(q.data);
      && (a == Callbacks.Restart ==> Repository.Lookup(w'.store, c) == Some(Models.NewSession(c, AwaitingPassport)) && c !in w'.cache)
      && (a == Callbacks.AgreePrice ==>
            StateOf(w'.store, c) == Some(if Complete(w.store[c]) && env.policySent then Completed else GeneratingPolicy))
      && (a == Callbacks.DeclinePrice ==> w'.store == w.store)
      && (PriceTable(a).None? ==> w'.store == w.store)
  {
  }

  /** Confirming the read vehicle document stores AwaitingPriceConfirmation;
      the press is answered and the price offer follows with its buttons. */
  lemma VehicleDocConfirmedOffersPrice(env: Env, w: World, q: Telegram.CallbackQuery)
    requires q.chat.Some? && q.chat.value != 0 && Repository.KeysMatch(w.store)
    requires StateOf(w.store, q.chat.value) == Some(ConformingVehicleDoc)
    requires Callbacks.Decode(q.data) == Callbacks.ConfirmVehicleDoc
    ensures var c, w' := q.chat.value, Handled(env, w, Telegram.CallbackQueryUpdate(q));
      && w'.store == w.store[c := w.store[c].(state := AwaitingPriceConfirmation)]
      && w'.cache == w.cache
      && w'.outbox == w.outbox + [Telegram.AnswerCallbackQuery,
           Telegram.Send(c, BotMessages.PriceConfirmationPrompt(100), BotKeyboards.PriceConfirmationKeyboard)]
  {
  }

  /** Declining the offer keeps AwaitingPriceConfirmation; the press is
      answered and the declined-offer message follows with its buttons. */
  lemma PriceDeclinedReply(env: Env, w: World, q: Telegram.CallbackQuery)
    requires q.chat.Some? && q.chat.value != 0 && Repository.KeysMatch(w.store)
    requires StateOf(w.store, q.chat.value) == Some(AwaitingPriceConfirmation)
    requires Callbacks.Decode(q.data) == Callbacks.DeclinePrice
    ensures var c, w' := q.chat.value, Handled(env, w, Telegram.CallbackQueryUpdate(q));
      && w' == w.(outbox := w.outbox + [Telegram.AnswerCallbackQuery,
           Telegram.Send(c, BotMessages.Plain(BotMessages.DeclinedPriceOffer), BotKeyboards.DeclinedPriceOfferKeyboard)])
  {
  }

  /** In the country step any button press whose payload has a `_` stores
      the piece after it as the country and asks for the front page; one
      without `_` throws and is answered with the generic error. */
  lemma CountryCallbackUpdate(env: Env, w: World, q: Telegram.CallbackQuery)
    requires q.chat.Some? && q.chat.value != 0 && Repository.KeysMatch(w.store)
    requires StateOf(w.store, q.chat.value) == Some(AwaAwaitingVehicleCountry)
    ensures var c, w', t := q.chat.value, Handled(env, w, Telegram.CallbackQueryUpdate(q)), CountryToken(q.data);
      && w'.cache == w.cache
      && (t.Some? ==> w'.store == w.store[c := w.store[c].(countryCode := t, state := AwaitingVehicleFront)])
      && (t.None? ==> w'.store == w.store && w'.outbox == w.outbox + [Telegram.AnswerCallbackQuery,
            Telegram.Send(c, BotMessages.Plain(BotMessages.ErrorOccurred), BotKeyboards.NoMarkup)])
  {
  }

  /** A front page replaces the chat's pending pages with itself; with a back
      page to come the session waits for it, otherwise the page is read at
      once and dropped. */
  lemma FrontPhotoUpdate(env: Env, w: World, m: Telegram.Message)
    requires m.chatId != 0 && Repository.KeysMatch(w.store)
    requires StateOf(w.store, m.chatId) == Some(AwaitingVehicleFront)
    requires Telegram.HasPhoto(m) && !Telegram.IsStartCommand(m.text)
    ensures var c, w', cfg := m.chatId, Handled(env, w, Telegram.MessageUpdate(m)),
        MindeeSettings.GetForCountry(env.mindee, w.store[m.chatId].countryCode);
      && (cfg.Err? ==> w'.store == w.store && PagesOf(w'.cache, c) == Some([m.photo.value]))
      && (cfg.Ok? && cfg.value.hasBackPage ==>
            PagesOf(w'.cache, c) == Some([m.photo.value]) && StateOf(w'.store, c) == Some(AwaitingVehicleBack))
      && (cfg.Ok? && !cfg.value.hasBackPage ==>
            PagesOf(w'.cache, c) == Option.None && StateOf(w'.store, c) == Some(ConformingVehicleDoc))
  {
  }

  /** A back page is appended to the pending front page and the two are read
      together and dropped; without a pending front page the chat gets an
      error and nothing else changes. */
  lemma BackPhotoUpdate(env: Env, w: World, m: Telegram.Message)
    requires m.chatId != 0 && Repository.KeysMatch(w.store)
    requires StateOf(w.store, m.chatId) == Some(AwaitingVehicleBack)
    requires Telegram.HasPhoto(m) && !Telegram.IsStartCommand(m.text)
    ensures var c, w' := m.chatId, Handled(env, w, Telegram.MessageUpdate(m));
      && (c !in w.cache ==>
            w' == Say(w, c, BotMessages.ErrorOccurred))
      && (c in w.cache ==>
            var r := env.extractVehicle(w.cache[c] + [m.photo.value], w.store[c].countryCode);
            && PagesOf(w'.cache, c) == Option.None
            && w'.store == w.store[c := w.store[c].(state := ConformingVehicleDoc,
                                                    vehicleData := if r.Some? then r else w.store[c].vehicleData)])
  {
  }

  /** `restart` is honoured only while the price is on offer, no button
      completes a session, and only `agreePrice` starts issuance. */
  lemma CallbackTargets(state: ConversationState, a: Callbacks.Action)
    ensures CallbackTarget(state, Callbacks.Restart).Some? <==> state == AwaitingPriceConfirmation
    ensures CallbackTarget(state, a) != Some(Completed)
    ensures CallbackTarget(state, a) == Some(GeneratingPolicy) <==> state == AwaitingPriceConfirmation && a == Callbacks.AgreePrice
  {
  }

  // ---------------------------------------------------------------------
  // The handler object

  /** The handler itself: the session repository it shares with the rest of
      the process, the pending-page buffers and the replies it has sent.
      Each method carries out its step on this state and is proved to do
      what the function of the same step above describes. */
  class BotUpdateHandler {
    const repository: Repository.UserSessionRepositoryInMemory<ConversationState>
    var tempFileCache: Cache
    var outbox: seq<Reply>

    constructor(repository: Repository.UserSessionRepositoryInMemory<ConversationState>)
      ensures this.repository == repository
      ensures tempFileCache == map[] && outbox == []
    {
      this.repository := repository;
      tempFileCache := map[];
      outbox := [];
    }

    /** The state the step functions speak about. */
    function Snapshot(): World
      reads this, repository
    {
      World(repository.sessions, tempFileCache, outbox)
    }

    method Send(chatId: int, body: BotMessages.Body, markup: BotKeyboards.Markup)
      modifies this
      ensures Snapshot() == Sent(old(Snapshot()), chatId, body, markup)
    {
      outbox := outbox + [Telegram.Send(chatId, body, markup)];
    }

    method SendText(chatId: int, m: BotMessages.Message)
      modifies this
      ensures Snapshot() == Say(old(Snapshot()), chatId, m)
    {
      Send(chatId, BotMessages.Plain(m), BotKeyboards.NoMarkup);
    }

    method SendComputedText(chatId: int, text: string)
      modifies this
      ensures Snapshot() == Tell(old(Snapshot()), chatId, text)
    {
      Send(chatId, BotMessages.Text(text), BotKeyboards.NoMarkup);
    }

    method GetOrCreateSession(chatId: int) returns (s: Session)
      ensures s == SessionFor(repository.sessions, chatId)
    {
      var stored := repository.Get(chatId);
      if stored.Some? {
        s := stored.value;
      } else {
        s := Models.NewSession(chatId, ConversationState.None);
      }
    }

    method SendUnrecognizedMessageResponse(env: Env, chatId: int, text: Option<string>, state: ConversationState)
      modifies this
      ensures Snapshot() == SendUnrecognized(env, old(Snapshot()), chatId, text, state)
    {
      var answer := env.gemini(text, state);
      if answer.Some? {
        SendComputedText(chatId, answer.value);
      } else {
        Send(chatId, BotMessages.Reminder(state), BotKeyboards.NoMarkup);
      }
    }

    method HandleStartCommand(chatId: int)
      modifies this, repository
      ensures Snapshot() == Start(old(Snapshot()), chatId)
    {
      tempFileCache := tempFileCache - {chatId};
      var found := repository.Delete(chatId);
      var added := repository.Add(Models.NewSession(chatId, AwaitingPassport));
      SendText(chatId, BotMessages.StartMessage);
    }

    method RequestPriceConfirmation(chatId: int)
      modifies this
      ensures Snapshot() == PriceRequested(old(Snapshot()), chatId)
    {
      Send(chatId, BotMessages.PriceConfirmationPrompt(100), BotKeyboards.PriceConfirmationKeyboard);
    }

    method HandleManualPassportText(env: Env, chatId: int, text: string, session: Session) returns (s: Session, fault: bool)
      modifies this, repository
      ensures Outcome(Snapshot(), s, fault) == ManualPassportText(env, old(Snapshot()), chatId, text, session)
    {
      s, fault := session, false;
      match PassportEntry(text, env.currentYear)
      case Err(e) =>
        if e == WrongFieldCount {
          SendUnrecognizedMessageResponse(env, chatId, Some(text), s.state);
        } else {
          SendText(chatId, BotMessages.PassportDateParseError);
        }
      case Ok(passport) =>
        s := s.(passportData := Some(passport), state := ConfirmingPassport);
        repository.Update(s);
        Send(chatId, BotMessages.PassportDataConfirmationPrompt(passport), BotKeyboards.PassportConfirmationKeyboard);
    }

    method HandleManualVehicleText(env: Env, chatId: int, text: string, session: Session) returns (s: Session, fault: bool)
      modifies this, repository
      ensures Outcome(Snapshot(), s, fault) == ManualVehicleText(env, old(Snapshot()), chatId, text, session)
    {
      s, fault := session, false;
      match VehicleEntry(text, env.currentYear)
      case Err(WrongFieldCount) =>
        SendUnrecognizedMessageResponse(env, chatId, Some(text), s.state);
      case Err(YearOverflow) =>
        fault := true;
      case Err(Unreadable) =>
        SendText(chatId, BotMessages.VehicleYearParseError);
      case Ok(vehicle) =>
        s := s.(vehicleData := Some(vehicle), state := ConformingVehicleDoc);
        repository.Update(s);
        Send(chatId, BotMessages.VehicleDataConfirmationPrompt(vehicle), BotKeyboards.VehicleDocConfirmationKeyboard);
    }

    method HandlePassportPhoto(env: Env, chatId: int, photo: Telegram.Bytes, session: Session) returns (s: Session, fault: bool)
      modifies this, repository
      ensures Outcome(Snapshot(), s, fault) == PassportPhoto(env, old(Snapshot()), chatId, photo, session)
    {
      s, fault := session.(state := ConfirmingPassport), false;
      repository.Update(s);
      var passport := env.extractPassport(photo);
      if passport.None? {
        Send(chatId, BotMessages.Plain(BotMessages.PassportExtractionFailed), BotKeyboards.PassportExtractionFailedKeyboard);
        return;
      }
      s := s.(passportData := passport);
      repository.Update(s);
      Send(chatId, BotMessages.PassportDataExtracted(passport.value), BotKeyboards.PassportConfirmationKeyboard);
    }

    method ProcessVehicleDocument(env: Env, session: Session) returns (s: Session)
      modifies this, repository
      ensures Outcome(Snapshot(), s, false) == DocumentRead(env, old(Snapshot()), session)
    {
      s := session;
      if !HasPages(tempFileCache, s.chatId) {
        SendText(s.chatId, BotMessages.ErrorOccurred);
        return;
      }
      var vehicle := env.extractVehicle(tempFileCache[s.chatId], s.countryCode);
      if vehicle.Some? {
        s := s.(vehicleData := vehicle, state := ConformingVehicleDoc);
        repository.Update(s);
        Send(s.chatId, BotMessages.VehicleDataConfirmationPrompt(vehicle.value), BotKeyboards.VehicleDocConfirmationKeyboard);
      } else {
        Send(s.chatId, BotMessages.Plain(BotMessages.VehicleFrontPhotoExtractionFailed),
          BotKeyboards.Undefined("VehicleExtractionFailedKeyboard"));
      }
      tempFileCache := tempFileCache - {s.chatId};
    }

    method HandleVehicleFrontPhoto(env: Env, chatId: int, photo: Telegram.Bytes, session: Session) returns (s: Session, fault: bool)
      modifies this, repository
      ensures Outcome(Snapshot(), s, fault) == VehicleFrontPhoto(env, old(Snapshot()), chatId, photo, session)
    {
      s, fault := session, false;
      tempFileCache := tempFileCache[chatId := [photo]];
      var config := MindeeSettings.GetForCountry(env.mindee, s.countryCode);
      if config.Err? {
        fault := true;
        return;
      }
      if config.value.hasBackPage {
        s := s.(state := AwaitingVehicleBack);
        SendText(s.chatId, BotMessages.AwaitingVehicleBackPhoto);
      } else {
        s := s.(state := ConformingVehicleDoc);
        s := ProcessVehicleDocument(env, s);
      }
      repository.Update(s);
    }

    method HandleVehicleBackPhoto(env: Env, chatId: int, photo: Telegram.Bytes, session: Session) returns (s: Session, fault: bool)
      modifies this, repository
      ensures Outcome(Snapshot(), s, fault) == VehicleBackPhoto(env, old(Snapshot()), chatId, photo, session)
    {
      s, fault := session, false;
      if chatId !in tempFileCache {
        SendText(chatId, BotMessages.ErrorOccurred);
        return;
      }
      tempFileCache := tempFileCache[chatId := tempFileCache[chatId] + [photo]];
      s := s.(state := ConformingVehicleDoc);
      repository.Update(s);
      s := ProcessVehicleDocument(env, s);
    }

    method HandlePassportConfirmationCallbacks(data: Option<string>, chatId: int, session: Session) returns (s: Session, fault: bool)
      modifies this, repository
      ensures Outcome(Snapshot(), s, fault) == PassportConfirmationCallbacks(old(Snapshot()), data, chatId, session)
    {
      s, fault := session, false;
      match Callbacks.Decode(data)
      case RetryPassport =>
        s := s.(state := AwaitingPassport);
        repository.Update(s);
        SendText(chatId, BotMessages.AwaitingPassportPhoto);
      case ManualPassport =>
        s := s.(state := EnteringPassportData);
        repository.Update(s);
        SendText(chatId, BotMessages.ManualPassportDataPrompt);
      case ConfirmPassport =>
        s := s.(state := AwaAwaitingVehicleCountry);
        repository.Update(s);
        Send(chatId, BotMessages.Plain(BotMessages.PassportConfirmedPromptVehicleFront), BotKeyboards.Undefined("VehicleCountry"));
      case _ =>
        SendText(chatId, BotMessages.InvalidActionContext);
    }

    /** The country step, written inline in `HandleCallbackQueryUpdateAsync`. */
    method HandleCountryCallback(data: Option<string>, chatId: int, session: Session) returns (s: Session, fault: bool)
      modifies this, repository
      ensures Outcome(Snapshot(), s, fault) == CountryCallback(old(Snapshot()), data, chatId, session)
    {
      s, fault := session, false;
      if data.None? {
        fault := true;
        return;
      }
      var parts := Text.Split(data.value, '_');
      if |parts| < 2 {
        fault := true;
        return;
      }
      s := s.(countryCode := Some(parts[1]), state := AwaitingVehicleFront);
      repository.Update(s);
      SendText(chatId, BotMessages.AwaitingVehicleFrontPhoto);
    }

    method HandleVehicleConfirmationCallbacks(data: Option<string>, chatId: int, session: Session) returns (s: Session, fault: bool)
      modifies this, repository
      ensures Outcome(Snapshot(), s, fault) == VehicleConfirmationCallbacks(old(Snapshot()), data, chatId, session)
    {
      s, fault := session, false;
      match Callbacks.Decode(data)
      case RetryVehicleFront =>
        s := s.(state := AwaitingVehicleFront);
        repository.Update(s);
        SendText(chatId, BotMessages.AwaitingVehicleFrontPhoto);
      case ConfirmVehicleFront =>
        s := s.(state := AwaitingVehicleBack);
        repository.Update(s);
        SendText(chatId, BotMessages.VehicleFrontConfirmedPromptVehicleBack);
      case RetryVehicleBack =>
        s := s.(state := AwaitingVehicleBack);
        repository.Update(s);
        SendText(chatId, BotMessages.AwaitingVehicleBackPhoto);
      case ConfirmVehicleBack =>
        s := s.(state := ConformingVehicleDoc);
        repository.Update(s);
        if s.vehicleData.None? {
          fault := true;
          return;
        }
        Send(chatId, BotMessages.VehicleDataConfirmationPrompt(s.vehicleData.value), BotKeyboards.VehicleDocConfirmationKeyboard);
      case ConfirmVehicleDoc =>
        s := s.(state := AwaitingPriceConfirmation);
        repository.Update(s);
        RequestPriceConfirmation(chatId);
      case ManualVehicle =>
        s := s.(state := EnteringVehicleData);
        repository.Update(s);
        SendText(chatId, BotMessages.ManualVehicleDataPrompt);
      case _ =>
        SendText(chatId, BotMessages.InvalidActionContext);
    }

    method GenerateAndSendPolicy(env: Env, chatId: int, session: Session) returns (s: Session)
      modifies this, repository
      ensures Outcome(Snapshot(), s, false) == PolicyGenerated(env, old(Snapshot()), chatId, session)
    {
      s := session;
      if s.passportData.None? || s.vehicleData.None? {
        SendText(chatId, BotMessages.MissingPolicyDataError);
        return;
      }
      if !env.policySent {
        SendText(chatId, BotMessages.ErrorOccurred);
        return;
      }
      outbox := outbox + [Telegram.SendDocument(chatId)];
      s := s.(state := Completed);
      repository.Update(s);
      Send(chatId, BotMessages.PolicyGenerationSuccess, BotKeyboards.NoMarkup);
    }

    method HandlePriceConfirmationCallbacks(env: Env, data: Option<string>, chatId: int, session: Session) returns (s: Session, fault: bool)
      modifies this, repository
      ensures Outcome(Snapshot(), s, fault) == PriceConfirmationCallbacks(env, old(Snapshot()), data, chatId, session)
    {
      s, fault := session, false;
      match Callbacks.Decode(data)
      case Restart =>
        HandleStartCommand(chatId);
      case AgreePrice =>
        s := s.(state := GeneratingPolicy);
        repository.Update(s);
        s := GenerateAndSendPolicy(env, chatId, s);
      case DeclinePrice =>
        s := s.(state := AwaitingPriceConfirmation);
        repository.Update(s);
        Send(chatId, BotMessages.Plain(BotMessages.DeclinedPriceOffer), BotKeyboards.DeclinedPriceOfferKeyboard);
      case _ =>
        SendText(chatId, BotMessages.InvalidActionContext);
    }

    method HandleMessageUpdate(env: Env, m: Telegram.Message, session: Session) returns (s: Session, fault: bool)
      modifies this, repository
      ensures Outcome(Snapshot(), s, fault) == MessageUpdate(env, old(Snapshot()), m, session)
    {
      s, fault := session, false;
      var chatId := m.chatId;
      match s.state
      case AwaitingPassport =>
        if Telegram.HasPhoto(m) {
          s, fault := HandlePassportPhoto(env, chatId, m.photo.value, s);
        } else {
          SendUnrecognizedMessageResponse(env, chatId, m.text, s.state);
        }
      case EnteringPassportData =>
        if !Telegram.IsNullOrEmpty(m.text) {
          s, fault := HandleManualPassportText(env, chatId, m.text.value, s);
        } else {
          SendUnrecognizedMessageResponse(env, chatId, m.text, s.state);
        }
      case AwaitingVehicleFront =>
        if Telegram.HasPhoto(m) {
          s, fault := HandleVehicleFrontPhoto(env, chatId, m.photo.value, s);
        } else {
          SendUnrecognizedMessageResponse(env, chatId, m.text, s.state);
        }
      case AwaitingVehicleBack =>
        if Telegram.HasPhoto(m) {
          s, fault := HandleVehicleBackPhoto(env, chatId, m.photo.value, s);
        } else {
          SendUnrecognizedMessageResponse(env, chatId, m.text, s.state);
        }
      case EnteringVehicleData =>
        if !Telegram.IsNullOrEmpty(m.text) {
          s, fault := HandleManualVehicleText(env, chatId, m.text.value, s);
        } else {
          SendUnrecognizedMessageResponse(env, chatId, m.text, s.state);
        }
      case AwaitingPriceConfirmation =>
        if Telegram.IsNullOrEmpty(m.text) {
          RequestPriceConfirmation(chatId);
        } else {
          SendUnrecognizedMessageResponse(env, chatId, m.text, s.state);
        }
      case Completed =>
        SendText(chatId, BotMessages.PolicyAlreadyIssued);
      case _ =>
        SendUnrecognizedMessageResponse(env, chatId, m.text, s.state);
    }

    method HandleCallbackQueryUpdate(env: Env, data: Option<string>, chatId: int, session: Session) returns (s: Session, fault: bool)
      modifies this, repository
      ensures Outcome(Snapshot(), s, fault) == CallbackQueryUpdate(env, old(Snapshot()), data, chatId, session)
    {
      s, fault := session, false;
      match s.state
      case ConfirmingPassport =>
        s, fault := HandlePassportConfirmationCallbacks(data, chatId, s);
      case AwaAwaitingVehicleCountry =>
        s, fault := HandleCountryCallback(data, chatId, s);
      case ConfirmingVehicleDocFront =>
        s, fault := HandleVehicleConfirmationCallbacks(data, chatId, s);
      case ConfirmingVehicleDocBack =>
        s, fault := HandleVehicleConfirmationCallbacks(data, chatId, s);
      case ConformingVehicleDoc =>
        s, fault := HandleVehicleConfirmationCallbacks(data, chatId, s);
      case AwaitingPriceConfirmation =>
        s, fault := HandlePriceConfirmationCallbacks(env, data, chatId, s);
      case Completed =>
        SendText(chatId, BotMessages.PolicyAlreadyIssued);
      case _ =>
        SendText(chatId, BotMessages.InvalidActionContext);
    }

    /** `HandleUpdateAsync`. */
    method HandleUpdate(env: Env, u: Telegram.Update)
      modifies this, repository
      ensures Snapshot() == Handled(env, old(Snapshot()), u)
    {
      var chatId := Telegram.ChatIdOf(u);
      if chatId == 0 {
        return;
      }
      if Telegram.IsStartCommand(Telegram.TextOf(u)) {
        HandleStartCommand(chatId);
        return;
      }
      var session := GetOrCreateSession(chatId);
      var fault;
      if u.MessageUpdate? {
        session, fault := HandleMessageUpdate(env, u.message, session);
      } else {
        outbox := outbox + [Telegram.AnswerCallbackQuery];
        session, fault := HandleCallbackQueryUpdate(env, u.query.data, chatId, session);
      }
      if fault {
        var stored := repository.Get(chatId);
        var answer := if stored.Some? && u.MessageUpdate? then env.gemini(u.message.text, stored.value.state) else Option.None;
        if answer.Some? {
          SendComputedText(chatId, answer.value);
        } else {
          SendText(chatId, BotMessages.ErrorOccurred);
        }
      }
    }
  }
}
