/**
 * The "connect" screen (internal/handler/connect.go): the subscription text
 * shown to a customer and the guards of the two handlers that show it.
 *
 * The text is a list of pieces, each a translation key and its argument; the
 * translation lookup, `fmt.Sprintf` and the "02.01.2006 15:04" date layout
 * are not part of this model, so an active subscription's piece carries the
 * expiry time itself.
 */
module Connect {
  import opened Wrappers
  import C = Customers
  import Callbacks

  datatype Argument = NoArgument | Date(at: int) | Url(link: string)

  datatype Piece = Piece(textKey: string, argument: Argument)

  predicate Active(c: C.Customer, now: int)
  {
    c.expireAt.Some? && now < c.expireAt.value
  }

  /**
   * buildConnectText, with `now` the clock reading. The text opens with the
   * active line, dated with the expiry, exactly when the subscription
   * expires strictly after now; otherwise (no expiry, or an expiry at or
   * before now) it is the no-subscription line alone. The link line follows
   * only for an active subscription with a non-empty link, and then carries
   * that link.
   */
  function ConnectText(c: C.Customer, now: int): (t: seq<Piece>)
    ensures 1 <= |t| <= 2
    ensures Active(c, now) <==> t[0].textKey == "subscription_active"
    ensures Active(c, now) ==> t[0] == Piece("subscription_active", Date(c.expireAt.value))
    ensures !Active(c, now) <==> t == [Piece("no_subscription", NoArgument)]
    ensures |t| == 2 <==> Active(c, now) && c.subscriptionLink.Some? && c.subscriptionLink.value != ""
    ensures |t| == 2 ==> t[1] == Piece("subscription_link", Url(c.subscriptionLink.value))
  {
    if c.expireAt.None? then [Piece("no_subscription", NoArgument)]
    else if now < c.expireAt.value then
      [Piece("subscription_active", Date(c.expireAt.value))]
      + (if c.subscriptionLink.Some? && c.subscriptionLink.value != "" then [Piece("subscription_link", Url(c.subscriptionLink.value))] else [])
    else [Piece("no_subscription", NoArgument)]
  }

  /** What a connect handler sends: a new message for the command, an edit of the pressed message for the button. */
  datatype Trigger = Command | Button(messageId: int)

  /** The message: chat, where it goes, its text, and the back button's callback data. */
  datatype Reply = Reply(chatId: int, trigger: Trigger, text: seq<Piece>, back: string)

  /**
   * ConnectCommandHandler and ConnectCallbackHandler, with the customer
   * lookup's result as an input. Both send nothing when the lookup fails or
   * finds no customer; otherwise they send that customer's connect text,
   * with a back button to the start menu, to the chat that asked.
   */
  function ConnectReply(lookup: Result<Option<C.Customer>, string>, chatId: int, trigger: Trigger, now: int): (r: Option<Reply>)
    ensures r.Some? <==> lookup.Ok? && lookup.value.Some?
    ensures r.Some? ==>
      r.value.chatId == chatId && r.value.trigger == trigger && r.value.text == ConnectText(lookup.value.value, now) && r.value.back == "start"
  {
    match lookup
    case Err(_) => None
    case Ok(None) => None
    case Ok(Some(c)) => Some(Reply(chatId, trigger, ConnectText(c, now), Callbacks.CallbackStart))
  }

  /** With the repository's lookup, a chat whose Telegram id no customer has gets no reply. */
  lemma UnknownChatGetsNothing(rows: seq<C.Customer>, chatId: int, trigger: Trigger, now: int)
    requires forall c :: c in rows ==> c.telegramId != chatId
    ensures ConnectReply(Ok(C.FindTelegram(rows, chatId)), chatId, trigger, now).None?
  {
    C.FindTelegramMatches(rows, chatId);
  }
}
