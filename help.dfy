/** `/help`: one static help text, sent as a plain string. */
module Help {
  import opened Common
  import opened TelegramClient

  const HelpLead := "\n🤖 "
  const HelpTitle := "TeqTank Bot Help"
  const HelpBody := "\n\nAvailable commands:\n• /start - Start the bot and show main menu\n• /login - Login to your account\n• /logout - Logout from your account\n• /help - Show this help message\n\nNeed more help? Contact support at support@teqtank.com\n"
  /** The template literal of the handler, with its bold title. */
  const HelpText := HelpLead + "<b>" + HelpTitle + "</b>" + HelpBody
  const HelpErrorText := "An error occurred. Please try again later."

  /** `handleHelp(chatId)`. */
  function HandleHelpSpec(c: ClientState, delivers: nat -> bool, chatId: ChatId): Handled {
    var sent := SendSpec(c, delivers, chatId, Plain(HelpText));
    if sent.id.Normal? then Handled(sent.client, Normal(OK))
    else
      var fallback := SendSpec(sent.client, delivers, chatId, Plain(HelpErrorText));
      Handled(fallback.client, if fallback.id.Normal? then Normal(OK) else Thrown)
  }

  /** Text without `&`, `<` or `>` is not changed by escaping. */
  lemma {:induction false} EscapeLeavesPlainText(s: string)
    requires '&' !in s && '<' !in s && '>' !in s
    ensures Escape(s) == s
  {
    EscapeIsTokenwise(s);
    TokensOfPlainText(s);
  }

  lemma {:induction false} TokensOfPlainText(s: string)
    requires '&' !in s && '<' !in s && '>' !in s
    ensures Tokens(s, 0) == s
    decreases |s|
  {
    if |s| > 0 {
      TokensOfPlainText(s[1..]);
      assert s == [s[0]] + s[1..];
    }
  }

  lemma BoldTagTokens()
    ensures Tokens("<b>", 0) == "&lt;b&gt;"
    ensures Tokens("</b>", 0) == "&lt;/b&gt;"
  {
    assert "<b>"[1..] == "b>" && "b>"[1..] == ">" && ">"[1..] == "";
    assert "</b>"[1..] == "/b>" && "/b>"[1..] == "b>";
  }

  /** Markup around plain text is escaped, the text around it is kept. */
  lemma EscapeBoldTitle(lead: string, title: string, body: string)
    requires '&' !in lead && '<' !in lead && '>' !in lead
    requires '&' !in title && '<' !in title && '>' !in title
    ensures Escape(lead + "<b>" + title + "</b>" + body) == lead + "&lt;b&gt;" + title + "&lt;/b&gt;" + Escape(body)
  {
    var open, close := "<b>", "</b>";
    EscapeIsTokenwise(lead + open + title + close + body);
    EscapeIsTokenwise(body);
    TokensAppend(lead + open + title + close, body, 0);
    TokensAppend(lead + open + title, close, 0);
    TokensAppend(lead + open, title, 0);
    TokensAppend(lead, open, 0);
    TokensOfPlainText(lead);
    TokensOfPlainText(title);
    BoldTagTokens();
  }

  /**
   * The help text is a plain string, so its markup is escaped: the title goes
   * out wrapped in `&lt;b&gt;` and `&lt;/b&gt;`, not in bold tags.
   */
  lemma HelpMarkupIsEscaped()
    ensures Body(Plain(HelpText)).text == HelpLead + "&lt;b&gt;" + HelpTitle + "&lt;/b&gt;" + Escape(HelpBody)
  {
    EscapeBoldTitle(HelpLead, HelpTitle, HelpBody);
  }

  /** A delivered help text is the one request made, and the handler answers OK. */
  lemma HelpSendsOnce(c: ClientState, delivers: nat -> bool, chatId: ChatId)
    requires delivers(|c.sends|)
    ensures HandleHelpSpec(c, delivers, chatId).client.sends == c.sends + [SendRequest(chatId, Body(Plain(HelpText)))]
    ensures HandleHelpSpec(c, delivers, chatId).result == Normal(OK)
  {
  }

  /** A failed help text is followed by exactly one apology. */
  lemma HelpFallback(c: ClientState, delivers: nat -> bool, chatId: ChatId)
    requires !delivers(|c.sends|)
    ensures HandleHelpSpec(c, delivers, chatId).client.sends
         == c.sends + [SendRequest(chatId, Body(Plain(HelpText))), SendRequest(chatId, Body(Plain(HelpErrorText)))]
    ensures HandleHelpSpec(c, delivers, chatId).result == (if delivers(|c.sends| + 1) then Normal(OK) else Thrown)
  {
  }

  method HandleHelp(client: Client, chatId: ChatId) returns (result: Outcome<Response>)
    modifies client
    ensures Handled(client.Model(), result) == HandleHelpSpec(old(client.Model()), client.delivers, chatId)
  {
    var sent := client.SendTelegramMessage(chatId, Plain(HelpText));
    if sent.Normal? {
      return Normal(OK);
    }
    var fallback := client.SendTelegramMessage(chatId, Plain(HelpErrorText));
    result := if fallback.Normal? then Normal(OK) else Thrown;
  }
}
