/** The chatbot page (src/sections/asistente/index.tsx) as a state machine
    over its message log: sending appends the user's message and one
    'loading' placeholder; the reply (or the failure) removes the placeholder
    and appends exactly one bot message. The request itself is a parameter:
    `Send` is the part of `enviarMensaje` before the `await`, `Complete` the
    part after it. */
module Asistente {
  import opened Wrappers
  import Lists
  import Text

  /** A message id: the literal 'loading' of the placeholder, or the decimal
      rendering of a `Date.now()` value, which is never 'loading'. */
  datatype MsgId = Loading | Stamp(millis: int)

  datatype Message = Message(id: MsgId, texto: string, esUsuario: bool, loading: bool)

  /** The page's state: the log, the input box and the in-flight flag. */
  datatype Chat = Chat(mensajes: seq<Message>, input: string, loading: bool)

  const Saludo := "¡Hola! 👋 Soy tu asistente virtual. ¿En qué puedo ayudarte hoy?"
  const Disculpa := "Lo siento, no pude procesar tu solicitud."
  const ErrorTexto := "Lo siento, ocurrió un error al procesar tu mensaje. Por favor, intenta nuevamente."

  /** The two suggestion chips. The second is written as a concatenation
      so that the verifier sees its first character; the string is the same. */
  const Sugerencias := ["¿Tiene pantalla para el A72?",
                        "¿" + "Buenos días, tienen pantalla para el Huawei P30 pro?"]

  /** The "escribiendo..." bubble. */
  const Placeholder := Message(Loading, "", false, true)

  function NotPlaceholder(m: Message): bool { m.id != Loading }

  predicate NoPlaceholder(ms: seq<Message>) {
    forall i :: 0 <= i < |ms| ==> ms[i].id != Loading
  }

  /** At most one placeholder, and it is there exactly while a request is in
      flight, as the last message of the log. */
  predicate Valid(c: Chat) {
    if c.loading then
      |c.mensajes| >= 1 && c.mensajes[|c.mensajes| - 1] == Placeholder
      && NoPlaceholder(c.mensajes[..|c.mensajes| - 1])
    else NoPlaceholder(c.mensajes)
  }

  /** The suggestion chips are shown while the log holds at most the
      greeting. */
  predicate SuggestionsVisible(c: Chat) {
    |c.mensajes| <= 1
  }

  /** The page as it mounts: the greeting alone, an empty input, idle. */
  function Initial(): (c: Chat)
    ensures |c.mensajes| == 1 && !c.mensajes[0].esUsuario && c.mensajes[0].texto == Saludo
    ensures Valid(c) && SuggestionsVisible(c) && !c.loading
  {
    Chat([Message(Stamp(1), Saludo, false, false)], "", false)
  }

  /** The send guard, `!inputValue.trim() || loading`, as a positive
      condition: the input is not all white space and no request is in
      flight. */
  function CanSend(c: Chat): (ok: bool)
    ensures ok <==> Text.Trim(c.input) != "" && !c.loading
  {
    Text.TrimEmptyIffBlank(c.input);
    !Text.Blank(c.input) && !c.loading
  }

  /** The synchronous part of `enviarMensaje`: ignored unless `CanSend`;
      otherwise the user's text, untrimmed, then one placeholder are
      appended, the input clears and the request is in flight. */
  function Send(c: Chat, now: int): (r: Chat)
    ensures Text.Trim(c.input) == "" || c.loading ==> r == c
    ensures Text.Trim(c.input) != "" && !c.loading ==>
      && r.mensajes == c.mensajes + [Message(Stamp(now), c.input, true, false), Placeholder]
      && r.input == "" && r.loading
  {
    if !CanSend(c) then c
    else Chat(c.mensajes + [Message(Stamp(now), c.input, true, false), Placeholder], "", true)
  }

  /** What came back from `/chatbot/consulta`: a body whose `respuesta` and
      `message` fields may be missing, or a failed request. */
  datatype Reply = Answered(respuesta: Option<string>, message: Option<string>) | Failed

  /** JavaScript truthiness of an optional string field. */
  predicate Truthy(s: Option<string>) {
    s.Some? && s.value != ""
  }

  /** `respuesta || message || <apology>`. */
  function BotText(respuesta: Option<string>, message: Option<string>): (t: string)
    ensures Truthy(respuesta) ==> t == respuesta.value
    ensures !Truthy(respuesta) && Truthy(message) ==> t == message.value
    ensures !Truthy(respuesta) && !Truthy(message) ==> t == Disculpa
    ensures t != ""
  {
    if Truthy(respuesta) then respuesta.value
    else if Truthy(message) then message.value
    else Disculpa
  }

  /** The text of the single bot message a reply produces. */
  function ReplyText(reply: Reply): (t: string)
    ensures reply.Failed? ==> t == ErrorTexto
    ensures reply.Answered? ==> t == BotText(reply.respuesta, reply.message)
    ensures t != ""
  {
    match reply
    case Answered(respuesta, message) => BotText(respuesta, message)
    case Failed => ErrorTexto
  }

  /** The part of `enviarMensaje` after the `await`, success and failure
      alike: every 'loading' message is filtered out, exactly one bot message
      is appended, and the request is no longer in flight. */
  function Complete(c: Chat, reply: Reply, now: int): (r: Chat)
    ensures !r.loading && r.input == c.input
    ensures NoPlaceholder(r.mensajes)
    ensures |r.mensajes| >= 1
    ensures r.mensajes[|r.mensajes| - 1] == Message(Stamp(now + 1), ReplyText(reply), false, false)
    ensures r.mensajes[..|r.mensajes| - 1] == Lists.Filter(c.mensajes, NotPlaceholder)
    ensures Valid(r)
  {
    var kept := Lists.Filter(c.mensajes, NotPlaceholder);
    var r := Chat(kept + [Message(Stamp(now + 1), ReplyText(reply), false, false)], c.input, false);
    assert r.mensajes[..|r.mensajes| - 1] == kept;
    r
  }

  /** Sending keeps the log well formed: from an idle, placeholder-free log
      the placeholder is the one new last message. */
  lemma SendValid(c: Chat, now: int)
    ensures Valid(c) ==> Valid(Send(c, now))
  {
    if Valid(c) && CanSend(c) {
      var r := Send(c, now);
      assert r.mensajes[..|r.mensajes| - 1] == c.mensajes + [Message(Stamp(now), c.input, true, false)];
    }
  }

  /** Filtering the placeholder out of a placeholder-free log followed by a
      user message and the placeholder leaves the log and the message. */
  lemma {:induction false} DropPlaceholder(log: seq<Message>, user: Message)
    requires NoPlaceholder(log) && user.id != Loading
    ensures Lists.Filter(log + [user] + [Placeholder], NotPlaceholder) == log + [user]
  {
    assert Lists.Filter([Placeholder], NotPlaceholder) == [] by {
      assert [Placeholder][1..] == [];
    }
    assert Lists.Filter(log + [user], NotPlaceholder) == log + [user] by {
      assert forall i :: 0 <= i < |log + [user]| ==> (log + [user])[i].id != Loading;
    }
    Lists.FilterAppend(log + [user], [Placeholder], NotPlaceholder);
  }

  /** An accepted send appends the user's message, then the placeholder. */
  lemma SendAccepted(c: Chat, now: int)
    requires CanSend(c)
    ensures Send(c, now).mensajes == c.mensajes + [Message(Stamp(now), c.input, true, false)] + [Placeholder]
  {
    var user := Message(Stamp(now), c.input, true, false);
    assert c.mensajes + [user, Placeholder] == c.mensajes + [user] + [Placeholder];
  }

  /** A full exchange from an idle log appends exactly the user's message
      and the bot's answer: the placeholder leaves no trace. */
  lemma ExchangeAppendsTwo(c: Chat, reply: Reply, sent: int, answered: int)
    requires Valid(c) && CanSend(c)
    ensures Complete(Send(c, sent), reply, answered).mensajes
         == c.mensajes + [Message(Stamp(sent), c.input, true, false),
                          Message(Stamp(answered + 1), ReplyText(reply), false, false)]
  {
    var user := Message(Stamp(sent), c.input, true, false);
    var bot := Message(Stamp(answered + 1), ReplyText(reply), false, false);
    SendAccepted(c, sent);
    DropPlaceholder(c.mensajes, user);
    CompleteLog(Send(c, sent), reply, answered);
  }

  /** The log after a completion, as one sequence: the kept messages, then
      the bot's. */
  lemma CompleteLog(c: Chat, reply: Reply, now: int)
    ensures Complete(c, reply, now).mensajes
         == Lists.Filter(c.mensajes, NotPlaceholder) + [Message(Stamp(now + 1), ReplyText(reply), false, false)]
  {
    var r := Complete(c, reply, now).mensajes;
    assert r == r[..|r| - 1] + [r[|r| - 1]];
  }

  /** Once a message has been exchanged the suggestions are gone. */
  lemma SuggestionsHiddenAfterExchange(c: Chat, reply: Reply, sent: int, answered: int)
    requires Valid(c) && CanSend(c)
    ensures !SuggestionsVisible(Send(c, sent))
    ensures !SuggestionsVisible(Complete(Send(c, sent), reply, answered))
  {
    ExchangeAppendsTwo(c, reply, sent, answered);
  }

  /** `handleKeyPress`: Enter without Shift sends, any other key does not.
      Either way the log stays well formed. */
  function KeyPress(c: Chat, key: string, shift: bool, now: int): (r: Chat)
    ensures key != "Enter" || shift ==> r == c
    ensures key == "Enter" && !shift && !CanSend(c) ==> r == c
    ensures key == "Enter" && !shift && CanSend(c) ==>
      && r.mensajes == c.mensajes + [Message(Stamp(now), c.input, true, false), Placeholder]
      && r.input == "" && r.loading
    ensures Valid(c) ==> Valid(r)
  {
    SendValid(c, now);
    if key == "Enter" && !shift then Send(c, now) else c
  }

  /** Neither chip's text is all white space: both open with '¿'. */
  lemma SuggestionsNotBlank()
    ensures forall k :: 0 <= k < |Sugerencias| ==> !Text.Blank(Sugerencias[k])
  {
    assert Sugerencias[0][0] == '¿' && !Text.IsSpace(Sugerencias[0][0]);
    assert Sugerencias[1][0] == '¿' && !Text.IsSpace(Sugerencias[1][0]);
  }

  /** `usarSugerencia`: a chip fills the input box and touches nothing else,
      so a chip's text passes the send guard exactly when no request is in
      flight. */
  function UseSuggestion(c: Chat, sugerencia: string): (r: Chat)
    ensures r.input == sugerencia && r.mensajes == c.mensajes && r.loading == c.loading
    ensures sugerencia in Sugerencias ==> (CanSend(r) <==> !c.loading)
    ensures Valid(c) ==> Valid(r)
    ensures SuggestionsVisible(r) == SuggestionsVisible(c)
  {
    SuggestionsNotBlank();
    c.(input := sugerencia)
  }
}
