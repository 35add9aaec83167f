/** What one step of the two intermediate handler revisions acts on: the
    merging session store and the replies sent so far. The two revisions
    word their replies differently, so the reply body is a type parameter. */
module Conversation {
  import opened Wrappers
  import opened Models
  import Repository
  import Telegram
  import BotKeyboards

  type Session = UserSession<ConversationState>
  type Store = Repository.Store<ConversationState>

  /** What the OCR service reads off the front of a vehicle registration
      document (`(RegistrationNumber, Year)`) and off its back
      (`(VIN, Model, Make)`). */
  datatype FrontSide = FrontSide(registrationNumber: string, year: int)
  datatype BackSide = BackSide(vin: string, model: string, make: string)

  /** What the handler learns from outside: the three OCR results (`None`
      when extraction throws) and whether the policy document reaches the
      chat. */
  datatype Env = Env(
    extractPassport: Telegram.Bytes -> Option<PassportData>,
    extractFront: Telegram.Bytes -> Option<FrontSide>,
    extractBack: Telegram.Bytes -> Option<BackSide>,
    policySent: bool)

  datatype World<B> = World(store: Store, outbox: seq<Telegram.Reply<B>>)

  /** A step's result: the new world, the handler's copy of the session, and
      whether an exception escaped the step. */
  datatype Outcome<B> = Outcome(world: World<B>, session: Session, fault: bool)

  function StateOf(store: Store, chatId: int): Option<ConversationState> {
    if chatId in store then Some(store[chatId].state) else Option.None
  }

  /** What handling an update may do to the world: append replies, touch the
      stored sessions of the given chats only, keep every record under its
      own chat id, and complete a session only while sending that chat its
      policy document. */
  ghost predicate Step<B>(w: World<B>, w': World<B>, chats: set<int>) {
    && |w.outbox| <= |w'.outbox| && w'.outbox[..|w.outbox|] == w.outbox
    && (forall k :: k !in chats ==> Repository.Lookup(w'.store, k) == Repository.Lookup(w.store, k))
    && (Repository.KeysMatch(w.store) ==> Repository.KeysMatch(w'.store))
    && Completions(w'.store) - Completions(w.store) <= Telegram.DocumentChats(w'.outbox[|w.outbox|..])
  }

  /** The chats whose stored session is Completed. */
  ghost function Completions(store: Store): set<int> {
    set k | k in store && store[k].state == Completed
  }

  lemma StepTrans<B>(w1: World<B>, w2: World<B>, w3: World<B>, c1: set<int>, c2: set<int>)
    requires Step(w1, w2, c1) && Step(w2, w3, c2)
    ensures Step(w1, w3, c1 + c2)
  {
    assert w3.outbox[..|w1.outbox|] == w3.outbox[..|w2.outbox|][..|w1.outbox|];
    assert w3.outbox[|w1.outbox|..] == w2.outbox[|w1.outbox|..] + w3.outbox[|w2.outbox|..];
    Telegram.DocumentChatsConcat(w2.outbox[|w1.outbox|..], w3.outbox[|w2.outbox|..]);
  }

  function Sent<B>(w: World<B>, chatId: int, body: B, markup: BotKeyboards.Markup): World<B> {
    w.(outbox := w.outbox + [Telegram.Send(chatId, body, markup)])
  }

  lemma SentStep<B>(w: World<B>, chatId: int, body: B, markup: BotKeyboards.Markup)
    ensures Step(w, Sent(w, chatId, body, markup), {})
  {
    assert Sent(w, chatId, body, markup).outbox[|w.outbox|..] == [Telegram.Send(chatId, body, markup)];
  }

  /** The acknowledgement of a button press. */
  function Answered<B>(w: World<B>): World<B> {
    w.(outbox := w.outbox + [Telegram.AnswerCallbackQuery])
  }

  lemma AnsweredStep<B>(w: World<B>)
    ensures Step(w, Answered(w), {})
  {
    assert Answered(w).outbox[|w.outbox|..] == [Telegram.AnswerCallbackQuery];
  }

  /** `_sessionRepository.UpdateAsync(s)`. */
  function Persisted<B>(w: World<B>, s: Session): World<B> {
    w.(store := Repository.Updated(w.store, s))
  }

  lemma PersistedStep<B>(w: World<B>, s: Session)
    requires s.state != Completed
    ensures Step(w, Persisted(w, s), {s.chatId})
  {
    if Repository.KeysMatch(w.store) {
      Repository.UpdateKeepsKeysMatch(w.store, s);
    }
  }

  /** `GetOrCreateSessionAsync`: the stored session, or a new one in state
      `None` that is not stored. */
  function SessionFor(store: Store, chatId: int): (s: Session)
    ensures Repository.KeysMatch(store) ==> s.chatId == chatId
    ensures chatId !in store ==> s == NewSession(chatId, ConversationState.None)
    ensures chatId in store ==> s == store[chatId]
  {
    if chatId in store then store[chatId] else NewSession(chatId, ConversationState.None)
  }

  /** `HandleStartCommandAsync`: delete the chat's session, store a fresh one
      awaiting the passport, and greet. */
  function Restarted<B>(w: World<B>, chatId: int, greeting: B): (w': World<B>)
    ensures Repository.Lookup(w'.store, chatId) == Some(NewSession(chatId, AwaitingPassport))
    ensures w'.store == w.store[chatId := NewSession(chatId, AwaitingPassport)]
    ensures w'.outbox == w.outbox + [Telegram.Send(chatId, greeting, BotKeyboards.NoMarkup)]
    ensures Step(w, w', {chatId})
  {
    var deleted := w.(store := w.store - {chatId});
    var added := deleted.(store := deleted.store[chatId := NewSession(chatId, AwaitingPassport)]);
    var w' := Sent(added, chatId, greeting, BotKeyboards.NoMarkup);
    assert w'.outbox[|w.outbox|..] == [Telegram.Send(chatId, greeting, BotKeyboards.NoMarkup)];
    assert w'.store == w.store[chatId := NewSession(chatId, AwaitingPassport)];
    w'
  }

  /** `session.VehicleData ??= new VehicleData()` and then the front side's
      registration number and year written into it. */
  function WithFront(v: Option<VehicleData>, f: FrontSide): (r: VehicleData)
    ensures r.registrationNumber == Some(f.registrationNumber) && r.year == Some(f.year)
    ensures v.Some? ==> r.vin == v.value.vin && r.make == v.value.make && r.model == v.value.model
    ensures v.None? ==> r.vin.None? && r.make.None? && r.model.None?
  {
    v.GetOr(EmptyVehicle).(registrationNumber := Some(f.registrationNumber), year := Some(f.year))
  }

  /** The same with the back side's VIN, model and make. */
  function WithBack(v: Option<VehicleData>, b: BackSide): (r: VehicleData)
    ensures r.vin == Some(b.vin) && r.model == Some(b.model) && r.make == Some(b.make)
    ensures v.Some? ==> r.registrationNumber == v.value.registrationNumber && r.year == v.value.year
    ensures v.None? ==> r.registrationNumber.None? && r.year.None?
  {
    v.GetOr(EmptyVehicle).(model := Some(b.model), make := Some(b.make), vin := Some(b.vin))
  }

  /** The two sides fill disjoint fields: reading them in either order gives
      the same record, and a record read from both sides is complete. */
  lemma FrontBackCommute(v: Option<VehicleData>, f: FrontSide, b: BackSide)
    ensures WithBack(Some(WithFront(v, f)), b) == WithFront(Some(WithBack(v, b)), f)
    ensures var r := WithBack(Some(WithFront(v, f)), b);
      r == VehicleData(Some(b.vin), Some(b.make), Some(b.model), Some(f.year), Some(f.registrationNumber))
  {
  }

  /** Reading the same side twice is reading it once. */
  lemma SideIdempotent(v: Option<VehicleData>, f: FrontSide, b: BackSide)
    ensures WithFront(Some(WithFront(v, f)), f) == WithFront(v, f)
    ensures WithBack(Some(WithBack(v, b)), b) == WithBack(v, b)
  {
  }
}
