/**
 * The bot's Telegram client: HTML escaping of plain-string messages, the
 * sendMessage call with the per-chat log of sent message ids, and clearing a
 * chat's history. The Bot API itself is an oracle: the k-th sendMessage
 * request is delivered exactly when `delivers(k)` holds, and a delivered
 * message gets the next id from a counter, so every id is fresh. A
 * deleteMessage request is best-effort: it is recorded and has no outcome.
 */
module TelegramClient {
  import opened Common
  import opened Strings

  // ---------------------------------------------------------------------------
  // HTML escaping (the "HTML style" of the Bot API's formatting options)

  /** The three global replaces applied to a plain-string message, `&` first. */
  function Escape(s: string): string {
    ReplaceAll(ReplaceAll(ReplaceAll(s, "&", "&amp;"), "<", "&lt;"), ">", "&gt;")
  }

  /** Undo the entities in the safe order: `&lt;`, then `&gt;`, then `&amp;`. */
  function Unescape(s: string): string {
    ReplaceAll(ReplaceAll(ReplaceAll(s, "&lt;", "<"), "&gt;", ">"), "&amp;", "&")
  }

  /**
   * What one input character has become after `stage` of the passes that
   * undo the escaping: stage 0 is the escaped form, stage 3 the character itself.
   */
  function Token(c: char, stage: nat): string {
    if c == '&' then (if stage < 3 then "&amp;" else "&")
    else if c == '<' then (if stage < 1 then "&lt;" else "<")
    else if c == '>' then (if stage < 2 then "&gt;" else ">")
    else [c]
  }

  /** The concatenation of every character's token at a stage. */
  function Tokens(s: string, stage: nat): (r: string)
    ensures stage == 0 ==> '<' !in r && '>' !in r
    decreases |s|
  {
    if |s| == 0 then "" else Token(s[0], stage) + Tokens(s[1..], stage)
  }

  lemma {:induction false} TokensAppend(a: string, b: string, stage: nat)
    ensures Tokens(a + b, stage) == Tokens(a, stage) + Tokens(b, stage)
    decreases |a|
  {
    if |a| == 0 {
      assert a + b == b;
    } else {
      TokensAppend(a[1..], b, stage);
      assert (a + b)[0] == a[0];
      assert (a + b)[1..] == a[1..] + b;
    }
  }

  lemma {:induction false} TokensFinal(s: string)
    ensures Tokens(s, 3) == s
    decreases |s|
  {
    if |s| > 0 {
      TokensFinal(s[1..]);
      assert s == [s[0]] + s[1..];
    }
  }

  /** Escaping one character gives its stage-0 token. */
  lemma EscapeChar(c: char)
    ensures Escape([c]) == Token(c, 0)
  {
    if c == '&' {
      ReplaceAllHit("", "&", "&amp;");
      assert "&" + "" == [c];
      ReplaceAllSkips("&amp;", "", "<", "&lt;");
      ReplaceAllSkips("&amp;", "", ">", "&gt;");
      assert "&amp;" + "" == "&amp;";
    } else if c == '<' {
      ReplaceAllSkips([c], "", "&", "&amp;");
      assert [c] + "" == [c];
      ReplaceAllHit("", "<", "&lt;");
      assert "<" + "" == [c];
      ReplaceAllSkips("&lt;", "", ">", "&gt;");
      assert "&lt;" + "" == "&lt;";
    } else if c == '>' {
      ReplaceAllSkips([c], "", "&", "&amp;");
      ReplaceAllSkips([c], "", "<", "&lt;");
      assert [c] + "" == [c];
      ReplaceAllHit("", ">", "&gt;");
      assert ">" + "" == [c];
    } else {
      ReplaceAllSkips([c], "", "&", "&amp;");
      ReplaceAllSkips([c], "", "<", "&lt;");
      ReplaceAllSkips([c], "", ">", "&gt;");
      assert [c] + "" == [c];
    }
  }

  /**
   * Because `&` is replaced before any entity is introduced, the three passes
   * map each input character to exactly one output token.
   */
  lemma {:induction false} EscapeIsTokenwise(s: string)
    ensures Escape(s) == Tokens(s, 0)
    decreases |s|
  {
    if |s| > 0 {
      var c, t := [s[0]], s[1..];
      assert s == c + t;
      ReplaceAllCharAppend(c, t, "&", "&amp;");
      var a1, b1 := ReplaceAll(c, "&", "&amp;"), ReplaceAll(t, "&", "&amp;");
      ReplaceAllCharAppend(a1, b1, "<", "&lt;");
      var a2, b2 := ReplaceAll(a1, "<", "&lt;"), ReplaceAll(b1, "<", "&lt;");
      ReplaceAllCharAppend(a2, b2, ">", "&gt;");
      assert Escape(s) == Escape(c) + Escape(t);
      EscapeChar(s[0]);
      EscapeIsTokenwise(t);
    }
  }

  /** The escaped text holds no raw `<` or `>`. */
  lemma EscapeHasNoAngleBrackets(s: string)
    ensures '<' !in Escape(s) && '>' !in Escape(s)
  {
    EscapeIsTokenwise(s);
  }

  /** Escaping distributes over concatenation. */
  lemma EscapeAppend(a: string, b: string)
    ensures Escape(a + b) == Escape(a) + Escape(b)
  {
    EscapeIsTokenwise(a + b);
    EscapeIsTokenwise(a);
    EscapeIsTokenwise(b);
    TokensAppend(a, b, 0);
  }

  /** The pattern and replacement of the un-escaping pass that leads out of `stage`. */
  function PassPattern(stage: nat): string
    requires stage < 3
  {
    if stage == 0 then "&lt;" else if stage == 1 then "&gt;" else "&amp;"
  }

  function PassReplacement(stage: nat): string
    requires stage < 3
  {
    if stage == 0 then "<" else if stage == 1 then ">" else "&"
  }

  /** An entity that differs from the pattern at its second character is left as it is. */
  lemma EntityMiss(entity: string, rest: string, pattern: string, replacement: string)
    requires |entity| >= 2 && |pattern| >= 2
    requires entity[0] == '&' && pattern[0] == '&' && entity[1] != pattern[1] && '&' !in entity[1..]
    ensures ReplaceAll(entity + rest, pattern, replacement) == entity + ReplaceAll(rest, pattern, replacement)
  {
    var s := entity + rest;
    assert s[1] == entity[1];
    assert !(pattern <= s);
    assert s[1..] == entity[1..] + rest;
    ReplaceAllSkips(entity[1..], rest, pattern, replacement);
    assert [entity[0]] + entity[1..] == entity;
  }

  /** One un-escaping pass turns a token into the next stage's and moves past it. */
  lemma PassToken(c: char, rest: string, stage: nat)
    requires stage < 3
    ensures ReplaceAll(Token(c, stage) + rest, PassPattern(stage), PassReplacement(stage))
         == Token(c, stage + 1) + ReplaceAll(rest, PassPattern(stage), PassReplacement(stage))
  {
    var pat, rep := PassPattern(stage), PassReplacement(stage);
    if c == '&' {
      if stage == 2 {
        ReplaceAllHit(rest, pat, rep);
      } else {
        EntityMiss("&amp;", rest, pat, rep);
      }
    } else if c == '<' {
      if stage == 0 {
        ReplaceAllHit(rest, pat, rep);
      } else {
        ReplaceAllSkips("<", rest, pat, rep);
      }
    } else if c == '>' {
      if stage == 0 {
        EntityMiss("&gt;", rest, pat, rep);
      } else if stage == 1 {
        ReplaceAllHit(rest, pat, rep);
      } else {
        ReplaceAllSkips(">", rest, pat, rep);
      }
    } else {
      ReplaceAllSkips([c], rest, pat, rep);
    }
  }

  lemma {:induction false} PassTokens(s: string, stage: nat)
    requires stage < 3
    ensures ReplaceAll(Tokens(s, stage), PassPattern(stage), PassReplacement(stage)) == Tokens(s, stage + 1)
    decreases |s|
  {
    if |s| > 0 {
      PassToken(s[0], Tokens(s[1..], stage), stage);
      PassTokens(s[1..], stage);
    }
  }

  /** Un-escaping `&lt;`, `&gt;` and then `&amp;` recovers the original text. */
  lemma UnescapeEscape(s: string)
    ensures Unescape(Escape(s)) == s
  {
    EscapeIsTokenwise(s);
    PassTokens(s, 0);
    PassTokens(s, 1);
    PassTokens(s, 2);
    TokensFinal(s);
  }

  // ---------------------------------------------------------------------------
  // messages

  datatype Button = Button(text: string, callbackData: string)

  datatype ReplyMarkup = InlineKeyboard(rows: seq<seq<Button>>)

  /** `TelegramMessageOptions`: the fields spread into the sendMessage body. */
  datatype MessageOptions = MessageOptions(text: string, parseMode: Option<string>, replyMarkup: Option<ReplyMarkup>)

  /** The `message` argument: a plain string or a structured payload. */
  datatype Message = Plain(text: string) | Structured(options: MessageOptions)

  /** The fields sent for a message: plain strings are escaped and marked HTML. */
  function Body(message: Message): MessageOptions {
    match message
    case Plain(text) => MessageOptions(Escape(text), Some("HTML"), None)
    case Structured(options) => options
  }

  /**
   * A plain string goes out escaped, as HTML, with no markup, and its text
   * can be read back exactly; a structured payload goes out unchanged.
   */
  lemma BodyFaithful(message: Message)
    ensures message.Plain? ==>
      && Body(message).parseMode == Some("HTML")
      && Body(message).replyMarkup == None
      && '<' !in Body(message).text && '>' !in Body(message).text
      && Unescape(Body(message).text) == message.text
    ensures message.Structured? ==> Body(message) == message.options
  {
    if message.Plain? {
      EscapeHasNoAngleBrackets(message.text);
      UnescapeEscape(message.text);
    }
  }

  // ---------------------------------------------------------------------------
  // the client's state

  datatype SendRequest = SendRequest(chatId: ChatId, body: MessageOptions)

  datatype Deletion = Deletion(chatId: ChatId, messageId: MessageId)

  /**
   * `log` is the `chatMessages` map; `nextId` the id the Bot API gives the
   * next delivered message; `sends` and `deletions` every request made, in order.
   */
  datatype ClientState = ClientState(
    log: map<ChatId, seq<MessageId>>,
    nextId: MessageId,
    sends: seq<SendRequest>,
    deletions: seq<Deletion>)

  /** A chat's log, `[]` when it has none. */
  function LogOf(c: ClientState, chatId: ChatId): seq<MessageId> {
    if chatId in c.log then c.log[chatId] else []
  }

  /** Ids in every log were issued before `nextId`, and each log is in sending order. */
  predicate Fresh(c: ClientState) {
    forall chat, i :: chat in c.log && 0 <= i < |c.log[chat]| ==>
      c.log[chat][i] < c.nextId && (i > 0 ==> c.log[chat][i - 1] < c.log[chat][i])
  }

  /** The result of a send: the client afterwards and the id, or the thrown error. */
  datatype Sent = Sent(client: ClientState, id: Outcome<MessageId>)

  /** `sendTelegramMessage`, with the Bot API's answer read from `delivers`. */
  function SendSpec(c: ClientState, delivers: nat -> bool, chatId: ChatId, message: Message): (r: Sent)
    ensures r.client.sends == c.sends + [SendRequest(chatId, Body(message))]
    ensures r.client.deletions == c.deletions
    ensures r.id.Normal? <==> delivers(|c.sends|)
    ensures r.id.Normal? ==> r.id.value == c.nextId && LogOf(r.client, chatId) == LogOf(c, chatId) + [c.nextId]
    ensures r.id.Thrown? ==> r.client.log == c.log && r.client.nextId == c.nextId
    ensures r.id.Normal? ==> r.client.nextId == c.nextId + 1
    ensures forall other :: other != chatId ==> LogOf(r.client, other) == LogOf(c, other)
    ensures Fresh(c) ==> Fresh(r.client)
  {
    var c1 := c.(sends := c.sends + [SendRequest(chatId, Body(message))]);
    if delivers(|c.sends|) then
      Sent(c1.(log := c.log[chatId := LogOf(c, chatId) + [c.nextId]], nextId := c.nextId + 1), Normal(c.nextId))
    else
      Sent(c1, Thrown)
  }

  /** What a command handler leaves behind: the client afterwards, and its response or the error it threw. */
  datatype Handled = Handled(client: ClientState, result: Outcome<Response>)

  /** One deleteMessage request per id, in order. */
  function DeletionsOf(chatId: ChatId, ids: seq<MessageId>): (r: seq<Deletion>)
    ensures |r| == |ids|
    ensures forall i :: 0 <= i < |ids| ==> r[i] == Deletion(chatId, ids[i])
    decreases |ids|
  {
    if |ids| == 0 then [] else DeletionsOf(chatId, ids[..|ids| - 1]) + [Deletion(chatId, ids[|ids| - 1])]
  }

  /** The client after a request to delete `messageId`, whatever its fate. */
  function DeleteSpec(c: ClientState, chatId: ChatId, messageId: MessageId): ClientState {
    c.(deletions := c.deletions + [Deletion(chatId, messageId)])
  }

  /** `clearChatHistory`: every logged id is asked to be deleted, then the log is emptied. */
  function ClearSpec(c: ClientState, chatId: ChatId): (r: ClientState)
    ensures r.deletions == c.deletions + DeletionsOf(chatId, LogOf(c, chatId))
    ensures LogOf(r, chatId) == []
    ensures forall other :: other != chatId ==> LogOf(r, other) == LogOf(c, other)
    ensures r.sends == c.sends && r.nextId == c.nextId
    ensures Fresh(c) ==> Fresh(r)
  {
    c.(deletions := c.deletions + DeletionsOf(chatId, LogOf(c, chatId)), log := c.log[chatId := []])
  }

  /** The client's module state together with the Bot API it talks to. */
  class Client {
    /** Whether the k-th sendMessage request is delivered (transport success and `response.ok`). */
    const delivers: nat -> bool
    var chatMessages: map<ChatId, seq<MessageId>>
    var nextMessageId: MessageId
    var sends: seq<SendRequest>
    var deletions: seq<Deletion>

    function Model(): ClientState
      reads this
    {
      ClientState(chatMessages, nextMessageId, sends, deletions)
    }

    constructor (delivers: nat -> bool, firstId: MessageId)
      ensures this.delivers == delivers
      ensures Model() == ClientState(map[], firstId, [], [])
    {
      this.delivers := delivers;
      chatMessages := map[];
      nextMessageId := firstId;
      sends := [];
      deletions := [];
    }

    /** `sendTelegramMessage`: escape a plain string, send, and log the new id. */
    method SendTelegramMessage(chatId: ChatId, message: Message) returns (id: Outcome<MessageId>)
      modifies this
      ensures Sent(Model(), id) == SendSpec(old(Model()), delivers, chatId, message)
    {
      var body := Body(message);
      var delivered := delivers(|sends|);
      sends := sends + [SendRequest(chatId, body)];
      if !delivered {
        return Thrown;
      }
      var messageId := nextMessageId;
      nextMessageId := nextMessageId + 1;
      if chatId !in chatMessages {
        chatMessages := chatMessages[chatId := []];
      }
      chatMessages := chatMessages[chatId := chatMessages[chatId] + [messageId]];
      id := Normal(messageId);
    }

    /** A deleteMessage request; a failure is logged and swallowed. */
    method RequestDelete(chatId: ChatId, messageId: MessageId)
      modifies this
      ensures Model() == DeleteSpec(old(Model()), chatId, messageId)
    {
      deletions := deletions + [Deletion(chatId, messageId)];
    }

    /** `clearChatHistory`: one delete per logged id, in order; then an empty log. */
    method ClearChatHistory(chatId: ChatId) returns (ok: bool)
      modifies this
      ensures Model() == ClearSpec(old(Model()), chatId)
      ensures ok
    {
      var messageIds := if chatId in chatMessages then chatMessages[chatId] else [];
      var i := 0;
      while i < |messageIds|
        invariant 0 <= i <= |messageIds|
        invariant deletions == old(deletions) + DeletionsOf(chatId, messageIds[..i])
        invariant chatMessages == old(chatMessages) && nextMessageId == old(nextMessageId) && sends == old(sends)
      {
        RequestDelete(chatId, messageIds[i]);
        assert messageIds[..i + 1][..i] == messageIds[..i];
        i := i + 1;
      }
      assert messageIds[..i] == messageIds;
      chatMessages := chatMessages[chatId := []];
      ok := true;
    }
  }
}
