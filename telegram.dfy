/** The parts of a Telegram update the handlers look at, and the replies they
    send back. Downloading a photo is folded into the update: a message with
    a photo carries the bytes of its largest size. */
module Telegram {
  import opened Wrappers
  import Text
  import BotKeyboards

  newtype byte = x: int | 0 <= x < 256
  type Bytes = seq<byte>

  /** A chat message: its text, if any, and its photo, if it has one. */
  datatype Message = Message(chatId: int, text: Option<string>, photo: Option<Bytes>)

  /** A button press: the chat of the message the button was on (`None` when
      Telegram no longer has that message) and the button's payload. */
  datatype CallbackQuery = CallbackQuery(chat: Option<int>, data: Option<string>)

  datatype Update =
    | MessageUpdate(message: Message)
    | CallbackQueryUpdate(query: CallbackQuery)
    | OtherUpdate

  /** What the bot sends: a message with optional keyboard, the answer that
      stops a button's spinner, or the policy document. */
  datatype Reply<Body> =
    | Send(chatId: int, body: Body, markup: BotKeyboards.Markup)
    | AnswerCallbackQuery
    | SendDocument(chatId: int)

  /** The chats a run of replies sends a policy document to. */
  ghost function DocumentChats<Body>(replies: seq<Reply<Body>>): set<int> {
    set r | r in replies && r.SendDocument? :: r.chatId
  }

  lemma DocumentChatsMember<Body>(replies: seq<Reply<Body>>, k: int)
    ensures k in DocumentChats(replies) <==> SendDocument(k) in replies
  {
    if k in DocumentChats(replies) {
      var r :| r in replies && r.SendDocument? && r.chatId == k;
      assert r == SendDocument(k);
    }
    if SendDocument(k) in replies {
      var r: Reply<Body> := SendDocument(k);
      assert r in replies && r.SendDocument? && r.chatId == k;
    }
  }

  lemma DocumentChatsConcat<Body>(a: seq<Reply<Body>>, b: seq<Reply<Body>>)
    ensures DocumentChats(a + b) == DocumentChats(a) + DocumentChats(b)
  {
    forall k ensures k in DocumentChats(a + b) <==> k in DocumentChats(a) + DocumentChats(b) {
      DocumentChatsMember(a + b, k);
      DocumentChatsMember(a, k);
      DocumentChatsMember(b, k);
    }
  }

  /** `update.Message?.Chat.Id ?? update.CallbackQuery?.Message?.Chat.Id ?? 0`. */
  function ChatIdOf(u: Update): int {
    match u
    case MessageUpdate(m) => m.chatId
    case CallbackQueryUpdate(q) => q.chat.GetOr(0)
    case OtherUpdate => 0
  }

  /** `update.Message?.Text`. */
  function TextOf(u: Update): Option<string> {
    if u.MessageUpdate? then u.message.text else Option.None
  }

  /** `text?.Trim() == "/start"`. */
  predicate IsStartCommand(text: Option<string>) {
    text.Some? && Text.Trim(text.value) == "/start"
  }

  /** `message.Photo is { Length: > 0 }`. */
  predicate HasPhoto(m: Message) {
    m.photo.Some?
  }

  /** `string.IsNullOrEmpty(s)`. */
  predicate IsNullOrEmpty(s: Option<string>) {
    s.None? || s.value == []
  }

  /** The command is recognised whatever white space surrounds it, and only
      in a text. */
  lemma StartCommandPadded(pre: string, post: string)
    requires forall i :: 0 <= i < |pre| ==> Text.IsWhiteSpace(pre[i])
    requires forall i :: 0 <= i < |post| ==> Text.IsWhiteSpace(post[i])
    ensures IsStartCommand(Some(pre + "/start" + post))
    ensures !IsStartCommand(Option.None)
  {
    Text.TrimPadded(pre, "/start", post);
  }
}
