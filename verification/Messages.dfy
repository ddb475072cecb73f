/** messagesFrom and partFrom (internal/proxy/generator.go): what Genkit is given for an accepted history. */
module Messages {
  import opened Prelude
  import opened GoStrings
  import opened Requests

  /** A Genkit part; tool inputs and outputs keep their raw JSON here. */
  datatype ModelPart =
    | TextPart(text: string)
    | MediaPart(contentType: string, url: string)
    | ToolRequestPart(request: ToolCall)
    | ToolResponsePart(response: ToolResult)

  datatype ModelMessage = ModelMessage(role: string, content: seq<ModelPart>)

  /** generator.go:280-299 */
  function PartFrom(p: Part): ModelPart {
    if p.media.Some? then MediaPart(p.media.value.contentType, p.media.value.url)
    else if p.toolRequest.Some? then ToolRequestPart(p.toolRequest.value)
    else if p.toolResponse.Some? then ToolResponsePart(p.toolResponse.value)
    else TextPart(p.text)
  }

  function PartsFrom(parts: seq<Part>): seq<ModelPart> {
    seq(|parts|, j requires 0 <= j < |parts| => PartFrom(parts[j]))
  }

  /** Parts if there are any, otherwise the content as one text part. */
  function MessageFrom(m: Message): ModelMessage {
    ModelMessage(m.role, if |m.parts| > 0 then PartsFrom(m.parts) else [TextPart(m.content)])
  }

  /** generator.go:259-276; null stands for nil. */
  method MessagesFrom(messages: seq<Message>) returns (msgs: array?<ModelMessage>)
    ensures msgs == null <==> messages == []
    ensures msgs != null ==> msgs.Length == |messages|
    ensures msgs != null ==> forall i :: 0 <= i < |messages| ==> msgs[i] == MessageFrom(messages[i])
  {
    if |messages| == 0 {
      return null;
    }
    msgs := new ModelMessage[|messages|];
    for i := 0 to |messages|
      invariant forall k :: 0 <= k < i ==> msgs[k] == MessageFrom(messages[k])
    {
      var message := messages[i];
      if |message.parts| > 0 {
        var parts := new ModelPart[|message.parts|](_ => TextPart(""));
        for j := 0 to |message.parts|
          invariant forall k :: 0 <= k < j ==> parts[k] == PartFrom(message.parts[k])
          invariant forall k :: 0 <= k < i ==> msgs[k] == MessageFrom(messages[k])
        {
          parts[j] := PartFrom(message.parts[j]);
        }
        assert parts[..] == PartsFrom(message.parts);
        msgs[i] := ModelMessage(message.role, parts[..]);
        continue;
      }
      msgs[i] := ModelMessage(message.role, [TextPart(message.content)]);
    }
  }

  // ---------------------------------------------------------- reading it back

  const NO_PART := Part("", None, None, None)

  /** The part a client would have sent to obtain g. */
  function PartOf(g: ModelPart): Part {
    match g
    case TextPart(t) => NO_PART.(text := t)
    case MediaPart(c, u) => NO_PART.(media := Some(Media(c, u)))
    case ToolRequestPart(q) => NO_PART.(toolRequest := Some(q))
    case ToolResponsePart(a) => NO_PART.(toolResponse := Some(a))
  }

  function MessageOf(g: ModelMessage): Message {
    Message(g.role, "", seq(|g.content|, j requires 0 <= j < |g.content| => PartOf(g.content[j])))
  }

  /** The part without a text of white space only. */
  function Cleared(p: Part): Part {
    if Blank(p.text) then p.(text := "") else p
  }

  /** The message with the content shorthand spelt out as a part and white-space texts removed. */
  function Normal(m: Message): Message {
    if |m.parts| > 0 then Message(m.role, "", seq(|m.parts|, j requires 0 <= j < |m.parts| => Cleared(m.parts[j])))
    else Message(m.role, "", [NO_PART.(text := m.content)])
  }

  /**
   * Converting a part loses nothing but white-space text exactly when it sets one alternative
   * (or nothing at all), which is why the conversion relies on validation.
   */
  lemma ConversionKeepsPartIff(p: Part)
    ensures PartOf(PartFrom(p)) == Cleared(p) <==> Alternatives(p) == 1 || p == NO_PART
  {}

  lemma PartOfIsInverse(g: ModelPart)
    ensures PartFrom(PartOf(g)) == g
  {}

  /** An accepted message comes back in its normal form, which is accepted again and converts alike. */
  lemma MessageSurvives(m: Message)
    requires MessageOk(m)
    ensures MessageOf(MessageFrom(m)) == Normal(m)
    ensures MessageOk(Normal(m))
    ensures MessageFrom(Normal(m)) == MessageFrom(m)
  {
    if |m.parts| > 0 {
      forall j | 0 <= j < |m.parts|
        ensures PartOf(PartFrom(m.parts[j])) == Cleared(m.parts[j])
        ensures PartOk(Cleared(m.parts[j])) && PartFrom(Cleared(m.parts[j])) == PartFrom(m.parts[j])
      {
        assert PartOk(m.parts[j]);
        ConversionKeepsPartIff(m.parts[j]);
      }
    }
  }

  /** Two accepted messages look the same to the model exactly when their normal forms agree. */
  lemma SameToTheModelIff(m: Message, m': Message)
    requires MessageOk(m) && MessageOk(m')
    ensures MessageFrom(m) == MessageFrom(m') <==> Normal(m) == Normal(m')
  {
    MessageSurvives(m);
    MessageSurvives(m');
  }

  /** What validation leaves possible in a part Genkit is given: nothing blank where a name or text belongs. */
  predicate Sound(g: ModelPart) {
    match g
    case TextPart(t) => !Blank(t)
    case MediaPart(c, u) => !Blank(c) && !Blank(u)
    case ToolRequestPart(q) => !Blank(q.name)
    case ToolResponsePart(a) => !Blank(a.name)
  }

  lemma SoundIff(g: ModelPart)
    ensures Sound(g) <==> PartOk(PartOf(g))
  {}

  lemma AcceptedIsSound(p: Part)
    requires PartOk(p)
    ensures Sound(PartFrom(p))
  {}

  predicate SoundMessage(g: ModelMessage) {
    RoleOk(g.role) && |g.content| > 0 && forall j :: 0 <= j < |g.content| ==> Sound(g.content[j])
  }

  /** Message m is accepted and converts to g. */
  predicate Yields(m: Message, g: ModelMessage) {
    MessageOk(m) && MessageFrom(m) == g
  }

  /** Genkit is given exactly the sound messages: each of them comes from some accepted message, and no other does. */
  lemma ModelSeesExactlySound(g: ModelMessage)
    ensures (exists m :: Yields(m, g)) <==> SoundMessage(g)
  {
    if m :| Yields(m, g) {
      forall j | 0 <= j < |m.parts| ensures Sound(PartFrom(m.parts[j])) {
        assert PartOk(m.parts[j]);
        AcceptedIsSound(m.parts[j]);
      }
    }
    if SoundMessage(g) {
      var m := MessageOf(g);
      forall j | 0 <= j < |g.content| ensures PartOk(m.parts[j]) && PartFrom(m.parts[j]) == g.content[j] {
        SoundIff(g.content[j]);
        PartOfIsInverse(g.content[j]);
      }
      BlankEmpty();
      assert MessageFrom(m).content == g.content;
      assert Yields(m, g);
    }
  }

  lemma BlankEmpty()
    ensures Blank("")
  {}

  /** g carries part p over, field by field. */
  predicate CarriesOver(p: Part, g: ModelPart) {
    && (p.media.Some? ==>
          g.MediaPart? && g.contentType == p.media.value.contentType && g.url == p.media.value.url)
    && (p.toolRequest.Some? ==>
          && g.ToolRequestPart? && g.request.name == p.toolRequest.value.name
          && g.request.callRef == p.toolRequest.value.callRef && g.request.input == p.toolRequest.value.input)
    && (p.toolResponse.Some? ==>
          && g.ToolResponsePart? && g.response.name == p.toolResponse.value.name
          && g.response.callRef == p.toolResponse.value.callRef && g.response.output == p.toolResponse.value.output)
    && (!Blank(p.text) ==> g.TextPart? && g.text == p.text)
  }

  /**
   * For an accepted request: same length, same order, same roles, every field where it
   * belongs, and every turn recoverable.
   */
  lemma HistorySurvives(r: GenerateRequest, msgs: seq<ModelMessage>)
    requires WellFormed(r)
    requires |msgs| == |r.messages|
    requires forall i :: 0 <= i < |msgs| ==> msgs[i] == MessageFrom(r.messages[i])
    ensures forall i :: 0 <= i < |msgs| ==> msgs[i].role == r.messages[i].role && RoleOk(msgs[i].role)
    ensures forall i :: 0 <= i < |msgs| ==> |msgs[i].content| == Max(1, |r.messages[i].parts|)
    ensures forall i, j :: 0 <= i < |msgs| && 0 <= j < |r.messages[i].parts| ==>
      j < |msgs[i].content| && CarriesOver(r.messages[i].parts[j], msgs[i].content[j])
    ensures forall i :: 0 <= i < |msgs| && r.messages[i].parts == [] ==>
      msgs[i].content == [TextPart(r.messages[i].content)]
    ensures forall i :: 0 <= i < |msgs| ==> MessageOf(msgs[i]) == Normal(r.messages[i])
  {
    forall i, j | 0 <= i < |msgs| && 0 <= j < |r.messages[i].parts|
      ensures CarriesOver(r.messages[i].parts[j], msgs[i].content[j])
    {
      assert MessageOk(r.messages[i]) && PartOk(r.messages[i].parts[j]);
    }
    forall i | 0 <= i < |msgs|
      ensures RoleOk(msgs[i].role) && MessageOf(msgs[i]) == Normal(r.messages[i])
    {
      assert MessageOk(r.messages[i]);
      MessageSurvives(r.messages[i]);
    }
  }
}
