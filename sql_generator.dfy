/**
 * The SQL-schema generator page: a chat in which each non-blank project idea
 * the user sends is answered by one assistant turn, either the generated schema
 * wrapped in a fixed Spanish sentence and an `sql` code fence, or a fixed
 * apology. The schema and the entity-relationship diagram panels show the
 * latest successful generation.
 *
 * The send handler awaits the backend call, so it is modelled in two steps:
 * `BeginSend` is the part before the `await` (it returns the request it sends,
 * or `None`), and `Deliver` is the continuation, given the call's outcome.
 * `SendMessage` runs both steps back to back.
 */
module SqlGenerator {
  import opened Wrappers
  import opened Text

  datatype Role = User | Assistant

  datatype ChatMessage = ChatMessage(role: Role, content: string)

  /** What the backend call produced: a schema and a diagram, or an error. */
  datatype Generation = Generated(sqlSchema: string, erDiagram: string) | GenerationFailed

  /** The assistant's text before the schema; it opens an `sql` code fence. */
  const ReplyPrefix := "He generado el esquema SQL para tu proyecto. Aquí están las tablas optimizadas:\n\n```sql\n"
  /** The assistant's text after the schema; it closes the code fence. */
  const ReplySuffix := "\n```"
  const Apology := "Lo siento, hubo un error al generar el esquema. Por favor, intenta de nuevo."

  /** The assistant turn appended for an outcome; it opens with the schema sentence exactly on success. */
  function Reply(g: Generation): (content: string)
    ensures g.Generated? <==> |ReplyPrefix| <= |content| && content[..|ReplyPrefix|] == ReplyPrefix
  {
    match g
    case Generated(schema, _) => ReplyPrefix + schema + ReplySuffix
    case GenerationFailed => Apology
  }

  /** The schema quoted in an assistant turn, if the turn is a schema reply. */
  function SchemaOf(content: string): Option<string>
  {
    var p := |ReplyPrefix|;
    var q := |content| - |ReplySuffix|;
    if p <= q && content[..p] == ReplyPrefix && content[q..] == ReplySuffix
    then Some(content[p..q])
    else None
  }

  /** A reply quotes exactly the generated schema; the apology quotes none. */
  lemma ReplyRoundTrip(g: Generation)
    ensures SchemaOf(Reply(g)) == (if g.Generated? then Some(g.sqlSchema) else None)
  {
    match g
    case Generated(schema, _) =>
      var c := ReplyPrefix + schema + ReplySuffix;
      var p := |ReplyPrefix|;
      var q := |c| - |ReplySuffix|;
      assert c[..p] == ReplyPrefix;
      assert c[q..] == ReplySuffix;
      assert c[p..q] == schema;
    case GenerationFailed =>
      assert |Apology| < |ReplyPrefix| + |ReplySuffix|;
  }

  /** Turns alternate, starting with the user's. */
  predicate Alternating(ms: seq<ChatMessage>)
  {
    forall i :: 0 <= i < |ms| ==> ms[i].role == (if i % 2 == 0 then User else Assistant)
  }

  /** A turn of the role due next keeps the transcript alternating. */
  lemma AppendKeepsAlternating(ms: seq<ChatMessage>, m: ChatMessage)
    requires Alternating(ms)
    requires m.role == (if |ms| % 2 == 0 then User else Assistant)
    ensures Alternating(ms + [m])
  {
    var ms' := ms + [m];
    forall i | 0 <= i < |ms'| ensures ms'[i].role == (if i % 2 == 0 then User else Assistant) {
      if i < |ms| {
        assert ms'[i] == ms[i];
      }
    }
  }

  class SchemaChat {
    var messages: seq<ChatMessage>
    var userInput: string
    var isLoading: bool
    var sqlSchema: string
    var erDiagram: string

    /**
     * Each user turn is answered before the next one; a request is pending
     * exactly when the last turn is the user's, and the input (disabled while
     * loading) is then empty.
     */
    ghost predicate Valid()
      reads this
    {
      && Alternating(messages)
      && (isLoading <==> |messages| % 2 == 1)
      && (isLoading ==> userInput == "")
    }

    /** The send button is enabled: nothing is loading and the input is not blank. */
    function CanSend(): (enabled: bool)
      reads this
      ensures enabled <==> !isLoading && !IsBlank(userInput)
    {
      TrimEmptyIffBlank(userInput);
      !isLoading && Trim(userInput) != ""
    }

    constructor ()
      ensures Valid()
      ensures messages == [] && userInput == "" && !isLoading
      ensures sqlSchema == "" && erDiagram == ""
    {
      messages := [];
      userInput := "";
      isLoading := false;
      sqlSchema := "";
      erDiagram := "";
    }

    /** The user edits the input; the input is disabled while loading. */
    method SetInput(text: string)
      requires Valid() && !isLoading
      modifies this`userInput
      ensures Valid()
      ensures userInput == text
    {
      userInput := text;
    }

    /**
     * The send handler up to its `await`. Blank input changes nothing and
     * sends nothing; otherwise the input, as typed, becomes a user turn and
     * the request, the input is cleared and loading starts.
     */
    method BeginSend() returns (request: Option<string>)
      requires Valid()
      modifies this
      ensures Valid()
      ensures request.Some? <==> old(CanSend())
      ensures request.Some? <==> !IsBlank(old(userInput))
      ensures request.None? ==> unchanged(this)
      ensures request.Some? ==>
        && request.value == old(userInput)
        && messages == old(messages) + [ChatMessage(User, old(userInput))]
        && userInput == "" && isLoading
        && sqlSchema == old(sqlSchema) && erDiagram == old(erDiagram)
    {
      TrimEmptyIffBlank(userInput);
      if Trim(userInput) == "" {
        return None;
      }
      request := Some(userInput);
      AppendKeepsAlternating(messages, ChatMessage(User, userInput));
      messages := messages + [ChatMessage(User, userInput)];
      userInput := "";
      isLoading := true;
    }

    /**
     * The continuation once the call settles: one assistant turn is appended,
     * a success replaces the schema and, when it carries one, the diagram, and
     * loading stops.
     */
    method Deliver(g: Generation)
      requires Valid() && isLoading
      modifies this
      ensures Valid() && !isLoading
      ensures messages == old(messages) + [ChatMessage(Assistant, Reply(g))]
      ensures userInput == old(userInput)
      ensures sqlSchema == (if g.Generated? then g.sqlSchema else old(sqlSchema))
      ensures erDiagram == (if g.Generated? && g.erDiagram != "" then g.erDiagram else old(erDiagram))
      ensures SchemaOf(messages[|messages| - 1].content) == (if g.Generated? then Some(sqlSchema) else None)
    {
      ReplyRoundTrip(g);
      AppendKeepsAlternating(messages, ChatMessage(Assistant, Reply(g)));
      messages := messages + [ChatMessage(Assistant, Reply(g))];
      if g.Generated? {
        sqlSchema := g.sqlSchema;
        if g.erDiagram != "" {
          erDiagram := g.erDiagram;
        }
      }
      isLoading := false;
    }

    /**
     * A whole send: nothing happens for blank input or while loading;
     * otherwise the transcript grows by the user turn and then the assistant
     * turn, and the page is idle again.
     */
    method SendMessage(g: Generation) returns (request: Option<string>)
      requires Valid()
      modifies this
      ensures Valid()
      ensures request.Some? <==> old(CanSend())
      ensures request.None? ==> unchanged(this)
      ensures request.Some? ==>
        && request.value == old(userInput)
        && messages == old(messages) + [ChatMessage(User, old(userInput)), ChatMessage(Assistant, Reply(g))]
        && userInput == "" && !isLoading
        && sqlSchema == (if g.Generated? then g.sqlSchema else old(sqlSchema))
        && erDiagram == (if g.Generated? && g.erDiagram != "" then g.erDiagram else old(erDiagram))
    {
      request := BeginSend();
      if request.Some? {
        Deliver(g);
      }
    }

    /** Enter without Shift starts a send unless a request is loading; other keys do nothing. */
    method KeyPress(key: string, shift: bool) returns (request: Option<string>)
      requires Valid()
      modifies this
      ensures Valid()
      ensures request.Some? <==> key == "Enter" && !shift && old(CanSend())
      ensures request.None? ==> unchanged(this)
      ensures request.Some? ==>
        && request.value == old(userInput)
        && messages == old(messages) + [ChatMessage(User, old(userInput))]
        && userInput == "" && isLoading
        && sqlSchema == old(sqlSchema) && erDiagram == old(erDiagram)
    {
      if key == "Enter" && !shift && !isLoading {
        request := BeginSend();
      } else {
        request := None;
      }
    }
  }

  /** The apology is never mistaken for a schema reply, whatever the schema. */
  lemma ApologyIsNoSchemaReply(schema: string, diagram: string)
    ensures Reply(Generated(schema, diagram)) != Reply(GenerationFailed)
  {
    ReplyRoundTrip(Generated(schema, diagram));
    ReplyRoundTrip(GenerationFailed);
  }

  /** In a valid transcript with no request pending, every user turn is answered by the next turn. */
  lemma EveryRequestAnswered(ms: seq<ChatMessage>, i: int)
    requires Alternating(ms) && |ms| % 2 == 0
    requires 0 <= i < |ms| && ms[i].role == User
    ensures i + 1 < |ms| && ms[i + 1].role == Assistant
  {
    assert ms[i].role == (if i % 2 == 0 then User else Assistant);
  }
}
