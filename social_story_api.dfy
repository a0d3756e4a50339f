/**
 * The generation clients (services/socialStoryApi.ts): the request for one
 * social-story scene and the extraction of its text from the shapes the text
 * service may answer with, and the image requests (scene images in
 * generation or edit mode, character reference sheets) with the extraction of
 * the image URL and the policy that an image failure never throws.
 *
 * The network is a function from the request to the reply; `JSON.parse` of the
 * model's text is a function parameter, and so is the message the JavaScript
 * engine gives a TypeError.
 */
module SocialStoryApi {
  import opened Js
  import opened Json
  import opened Types
  import ImageProxy

  /** A reply of the text or the image service: a failed fetch, or a status
      with the body read as text and as JSON. */
  datatype Reply = NetworkFailure(message: string) | Replied(status: int, text: string, body: ParsedBody)

  /** `response.json()`: the parsed body, or the message of the error it throws. */
  datatype ParsedBody = Parsed(data: Json) | Unparsable(message: string)

  /** A settled promise: the value, or the message of the error it rejects with. */
  datatype Outcome<T> = Success(value: T) | Failure(message: string)

  // ---------------------------------------------------------------------------
  // The scene request
  // ---------------------------------------------------------------------------

  function SceneLine(s: SocialStoryScene): string {
    "Scene " + IntToString(s.sceneNumber) + ": " + s.sceneTitle + " - " + s.sceneText + "\n"
  }

  /** One line per earlier scene, in order. */
  function SceneLines(scenes: seq<SocialStoryScene>): string {
    Concat(scenes, SceneLine)
  }

  const StoryHeader := "Story so far:\n"
  const ContextHeader := "\n\nAdditional context: "

  function StorySoFar(scenes: seq<SocialStoryScene>): string {
    if scenes == [] then "" else StoryHeader + SceneLines(scenes) + "\n"
  }

  function SceneRequest(sceneNumber: int, totalScenes: int): string {
    "Generate scene " + IntToString(sceneNumber) + " of " + IntToString(totalScenes) + "."
  }

  /** The additional context: present only when the custom scenario has
      specific details. */
  function AdditionalContext(custom: Option<CustomScenarioInput>): (r: string)
    ensures r == "" <==> !(custom.Some? && Present(custom.value.specificDetails))
  {
    assert |ContextHeader| > 0;
    if custom.Some? && Present(custom.value.specificDetails)
    then ContextHeader + custom.value.specificDetails.value
    else ""
  }

  /** The user prompt of a scene request. */
  function UserPrompt(sceneNumber: int, totalScenes: int, custom: Option<CustomScenarioInput>,
                      previous: seq<SocialStoryScene>): string
  {
    StorySoFar(previous) + SceneRequest(sceneNumber, totalScenes) + AdditionalContext(custom)
  }

  /** Builds the user prompt as the client does, a line per earlier scene. */
  method BuildUserPrompt(sceneNumber: int, totalScenes: int, custom: Option<CustomScenarioInput>,
                         previous: seq<SocialStoryScene>) returns (p: string)
    ensures p == UserPrompt(sceneNumber, totalScenes, custom, previous)
  {
    p := "";
    if |previous| > 0 {
      var lines := "";
      for i := 0 to |previous|
        invariant lines == SceneLines(previous[..i])
      {
        ConcatStep(previous, SceneLine, i);
        lines := lines + SceneLine(previous[i]);
      }
      assert previous[..|previous|] == previous;
      p := StoryHeader + lines + "\n";
    }
    p := p + SceneRequest(sceneNumber, totalScenes);
    if custom.Some? && Present(custom.value.specificDetails) {
      p := p + (ContextHeader + custom.value.specificDetails.value);
    }
  }

  /** The "Story so far" block appears exactly when there are earlier scenes. */
  lemma StorySoFarOnlyWithHistory(sceneNumber: int, totalScenes: int, custom: Option<CustomScenarioInput>,
                                  previous: seq<SocialStoryScene>)
    ensures StartsWith(UserPrompt(sceneNumber, totalScenes, custom, previous), StoryHeader) <==> previous != []
  {
    var history := StorySoFar(previous);
    var tail := SceneRequest(sceneNumber, totalScenes) + AdditionalContext(custom);
    var p := UserPrompt(sceneNumber, totalScenes, custom, previous);
    assert p == history + tail;
    if previous == [] {
      RequestStartsWithG(sceneNumber, totalScenes, AdditionalContext(custom));
      assert p == tail;
      assert StoryHeader[0] == 'S';
    } else {
      assert history == StoryHeader + (SceneLines(previous) + "\n");
      StartsWithConcat(StoryHeader, SceneLines(previous) + "\n");
      StartsWithConcat(history, tail);
    }
  }

  /** A scene request begins with the letter G. */
  lemma RequestStartsWithG(sceneNumber: int, totalScenes: int, rest: string)
    ensures |SceneRequest(sceneNumber, totalScenes) + rest| > 0
    ensures (SceneRequest(sceneNumber, totalScenes) + rest)[0] == 'G'
  {
    var request := SceneRequest(sceneNumber, totalScenes);
    assert request == "Generate scene " + (IntToString(sceneNumber) + " of " + IntToString(totalScenes) + ".");
  }

  /** The prompt always ends with the request for this scene and the
      additional context. */
  lemma PromptEndsWithRequest(sceneNumber: int, totalScenes: int, custom: Option<CustomScenarioInput>,
                              previous: seq<SocialStoryScene>)
    ensures SuffixOf(SceneRequest(sceneNumber, totalScenes) + AdditionalContext(custom),
                     UserPrompt(sceneNumber, totalScenes, custom, previous))
  {
    SuffixOfLastTwo(StorySoFar(previous), SceneRequest(sceneNumber, totalScenes), AdditionalContext(custom));
  }

  /** Each earlier scene has its line, and the lines keep the scenes' order:
      those of the scenes before it, then its own, then those after it. */
  lemma SceneLinesInOrder(scenes: seq<SocialStoryScene>, k: nat)
    requires k < |scenes|
    ensures SceneLines(scenes) == SceneLines(scenes[..k]) + SceneLine(scenes[k]) + SceneLines(scenes[k + 1..])
  {
    assert scenes == scenes[..k + 1] + scenes[k + 1..];
    ConcatAppend(scenes[..k + 1], scenes[k + 1..], SceneLine);
    ConcatStep(scenes, SceneLine, k);
  }

  /** The `is_final_scene` value the response structure asks for. */
  function FinalSceneFlag(sceneNumber: int, totalScenes: int): (r: string)
    ensures r == "true" <==> sceneNumber == totalScenes
    ensures r == "true" || r == "false"
  {
    if sceneNumber == totalScenes then "true" else "false"
  }

  /** The "KEY PEOPLE" line of the system prompt: the template's people, else
      the custom scenario's when it names some, else empty. */
  function KeyPeopleLine(template: Option<SocialStoryTemplate>, custom: Option<CustomScenarioInput>): (r: string)
    ensures template.Some? ==> r == "KEY PEOPLE: " + Join(template.value.keyPeople, ", ")
    ensures template.None? && custom.Some? && custom.value.keyPeople.Some? ==>
      r == "KEY PEOPLE: " + Join(custom.value.keyPeople.value, ", ")
    ensures r == "" <==> template.None? && (custom.None? || custom.value.keyPeople.None?)
  {
    if template.Some? then "KEY PEOPLE: " + Join(template.value.keyPeople, ", ")
    else if custom.Some? && custom.value.keyPeople.Some? then "KEY PEOPLE: " + Join(custom.value.keyPeople.value, ", ")
    else ""
  }

  /** The "COMMON CONCERNS" line: the template's fears, else the custom
      scenario's concerns when it has some, else empty. */
  function ConcernsLine(template: Option<SocialStoryTemplate>, custom: Option<CustomScenarioInput>): (r: string)
    ensures template.Some? ==> r == "COMMON CONCERNS: " + Join(template.value.commonFears, ", ")
    ensures template.None? && custom.Some? && custom.value.commonConcerns.Some? ==>
      r == "COMMON CONCERNS: " + Join(custom.value.commonConcerns.value, ", ")
    ensures r == "" <==> template.None? && (custom.None? || custom.value.commonConcerns.None?)
  {
    if template.Some? then "COMMON CONCERNS: " + Join(template.value.commonFears, ", ")
    else if custom.Some? && custom.value.commonConcerns.Some? then "COMMON CONCERNS: " + Join(custom.value.commonConcerns.value, ", ")
    else ""
  }

  /** The scenario line: the template's title, else the custom scenario's. */
  function ScenarioLine(template: Option<SocialStoryTemplate>, custom: Option<CustomScenarioInput>): string {
    if template.Some? then "SCENARIO: " + template.value.title
    else "CUSTOM SCENARIO: " + if custom.Some? then custom.value.title else "undefined"
  }

  /** The description line, from the template or else the custom scenario. */
  function DescriptionLine(template: Option<SocialStoryTemplate>, custom: Option<CustomScenarioInput>): string {
    "DESCRIPTION: " +
    if template.Some? then template.value.description
    else if custom.Some? then custom.value.description else "undefined"
  }

  function ChildLine(childName: string): string {
    "CHILD'S NAME: " + childName
  }

  function CurrentSceneLine(sceneNumber: int, totalScenes: int): string {
    "CURRENT SCENE: " + IntToString(sceneNumber) + " of " + IntToString(totalScenes)
  }

  /** Rule 3: the child is the protagonist "You", never named beside it. */
  function ProtagonistRule(childName: string): string {
    "3. IMPORTANT: The child (" + childName + ") IS the protagonist \"You\". NEVER say \"You and "
    + childName + "\". Always refer to the child as \"You\"."
  }

  /** The key that carries the final-scene flag in the response structure. */
  const FinalSceneKey := "  \"is_final_scene\": "

  function SceneNumberField(sceneNumber: int): string {
    "  \"scene_number\": " + IntToString(sceneNumber) + ","
  }

  function ClosingLine(totalScenes: int): string {
    "If scene_number equals " + IntToString(totalScenes) + ", set is_final_scene to true and wrap up the story positively."
  }

  /** The fixed prose of the system prompt, a block of lines at a time. */
  datatype ProseBlock = Intro | RulesOpening | RulesClosing | StructureOpening | StructureFields | ProgressionGuide

  function Prose(block: ProseBlock): string {
    match block
    case Intro =>
      "\nYou are a social story generator for children. Social stories help children \nprepare for new experiences by explaining what will happen in a clear, reassuring way."
    case RulesOpening =>
      "CRITICAL RULES:\n1. Output MUST be valid JSON only, no markdown fencing.\n2. Use second-person perspective (\"You will...\" or \"You might see...\")."
    case RulesClosing =>
      "4. Use present or future tense (not past tense)\n5. Keep language simple, concrete, and reassuring\n6. Each scene should be 2-4 sentences\n7. Focus on sensory details (what they'll see, hear, feel)\n8. Acknowledge feelings without being scary (\"You might feel nervous, and that's okay\")\n9. Introduce one key person or concept per scene\n10. Maintain a calm, positive tone throughout"
    case StructureOpening =>
      "STRUCTURE:\n{"
    case StructureFields =>
      "  \"scene_title\": \"string (2-5 words)\",\n  \"scene_text\": \"string (2-4 sentences, child-friendly, refer to the child as 'You', never use their name)\",\n  \"image_description\": \"string (visual description for image generator, realistic children's book style)\",\n  \"educational_note\": \"string (optional tip for parents)\",\n  \"person_introduced\": {\n    \"role\": \"string (e.g., 'dentist')\",\n    \"name\": \"string\",\n    \"description\": \"string (physical appearance for image generation)\",\n    \"what_they_do\": \"string (their role explained simply)\"\n  }, // Only include if a new person appears in this scene"
    case ProgressionGuide =>
      "SCENE PROGRESSION GUIDE:\nScene 1: Arrival/Introduction (where you're going, why)\nScene 2-3: Meeting people (who will help you)\nScene 4-5: Main activity (what will happen, step by step)\nScene 6: Addressing concerns (it's okay to feel nervous)\nScene 7+: Positive conclusion (you did it! what happens next)"
  }

  /** The system prompt's lines, in order, a fixed block standing for
      several; the prompt opens with a line break, which the intro carries,
      and closes with one, hence the empty last line. */
  function SystemLines(prose: ProseBlock -> string, sceneNumber: int, totalScenes: int, template: Option<SocialStoryTemplate>,
    custom: Option<CustomScenarioInput>, childName: string): (r: seq<string>)
    ensures |r| == 24
    ensures r[2] == ScenarioLine(template, custom) && r[4] == ChildLine(childName)
    ensures r[5] == CurrentSceneLine(sceneNumber, totalScenes) && r[7] == KeyPeopleLine(template, custom)
    ensures r[17] == FinalSceneKey + FinalSceneFlag(sceneNumber, totalScenes)
  {
    HeaderLines(prose, sceneNumber, totalScenes, template, custom, childName) + RuleLines(prose, childName)
    + StructureLines(prose, sceneNumber, totalScenes) + ClosingLines(prose, totalScenes)
  }

  /** The scenario, the child, the scene, and the people and concerns. */
  function HeaderLines(prose: ProseBlock -> string, sceneNumber: int, totalScenes: int, template: Option<SocialStoryTemplate>,
    custom: Option<CustomScenarioInput>, childName: string): (r: seq<string>)
    ensures |r| == 10
    ensures r[2] == ScenarioLine(template, custom) && r[4] == ChildLine(childName)
    ensures r[5] == CurrentSceneLine(sceneNumber, totalScenes) && r[7] == KeyPeopleLine(template, custom)
  {
    [ prose(Intro), "",
      ScenarioLine(template, custom), DescriptionLine(template, custom),
      ChildLine(childName), CurrentSceneLine(sceneNumber, totalScenes), "",
      KeyPeopleLine(template, custom), ConcernsLine(template, custom), "" ]
  }

  function RuleLines(prose: ProseBlock -> string, childName: string): (r: seq<string>)
    ensures |r| == 4
  {
    [prose(RulesOpening), ProtagonistRule(childName), prose(RulesClosing), ""]
  }

  /** The response structure, numbered and flagged for this scene. */
  function StructureLines(prose: ProseBlock -> string, sceneNumber: int, totalScenes: int): (r: seq<string>)
    ensures |r| == 6
    ensures r[3] == FinalSceneKey + FinalSceneFlag(sceneNumber, totalScenes)
  {
    [ prose(StructureOpening), SceneNumberField(sceneNumber), prose(StructureFields),
      FinalSceneKey + FinalSceneFlag(sceneNumber, totalScenes), "}", "" ]
  }

  function ClosingLines(prose: ProseBlock -> string, totalScenes: int): (r: seq<string>)
    ensures |r| == 4
  {
    [prose(ProgressionGuide), "", ClosingLine(totalScenes), ""]
  }

  /** The system prompt, with `prose` giving the fixed blocks' wording. */
  function SystemPromptIn(prose: ProseBlock -> string, sceneNumber: int, totalScenes: int,
    template: Option<SocialStoryTemplate>, custom: Option<CustomScenarioInput>, childName: string): string
  {
    Join(SystemLines(prose, sceneNumber, totalScenes, template, custom, childName), "\n")
  }

  /** The system prompt sent with every scene request. */
  function SystemPrompt(sceneNumber: int, totalScenes: int, template: Option<SocialStoryTemplate>,
    custom: Option<CustomScenarioInput>, childName: string): string
  {
    SystemPromptIn(Prose, sceneNumber, totalScenes, template, custom, childName)
  }

  // The properties below hold whatever the wording of the fixed blocks; each
  // is proved in that form, then stated of the prompt actually sent.

  lemma LineIncludedIn(prose: ProseBlock -> string, sceneNumber: int, totalScenes: int,
    template: Option<SocialStoryTemplate>, custom: Option<CustomScenarioInput>, childName: string,
    k: nat, line: string)
    requires k < 24 && SystemLines(prose, sceneNumber, totalScenes, template, custom, childName)[k] == line
    ensures Includes(SystemPromptIn(prose, sceneNumber, totalScenes, template, custom, childName), line)
  {
    JoinIncludesParts(SystemLines(prose, sceneNumber, totalScenes, template, custom, childName), "\n", k);
  }

  lemma KeyPersonIncludedIn(prose: ProseBlock -> string, sceneNumber: int, totalScenes: int,
    template: Option<SocialStoryTemplate>, custom: Option<CustomScenarioInput>, childName: string,
    people: seq<string>, k: nat)
    requires k < |people| && KeyPeopleLine(template, custom) == "KEY PEOPLE: " + Join(people, ", ")
    ensures Includes(SystemPromptIn(prose, sceneNumber, totalScenes, template, custom, childName), people[k])
  {
    var line := KeyPeopleLine(template, custom);
    JoinIncludesParts(people, ", ", k);
    IncludesSuffix("KEY PEOPLE: ", Join(people, ", "), people[k]);
    LineIncludedIn(prose, sceneNumber, totalScenes, template, custom, childName, 7, line);
    IncludesWithin(SystemPromptIn(prose, sceneNumber, totalScenes, template, custom, childName), line, people[k]);
  }

  /** Every key person of the template is named in the system prompt. */
  lemma KeyPeopleNamed(sceneNumber: int, totalScenes: int, template: SocialStoryTemplate,
    custom: Option<CustomScenarioInput>, childName: string, k: nat)
    requires k < |template.keyPeople|
    ensures Includes(SystemPrompt(sceneNumber, totalScenes, Some(template), custom, childName), template.keyPeople[k])
  {
    KeyPersonIncludedIn(Prose, sceneNumber, totalScenes, Some(template), custom, childName, template.keyPeople, k);
  }

  /** With no template, every key person the custom scenario lists is named
      in the system prompt. */
  lemma CustomKeyPeopleNamed(sceneNumber: int, totalScenes: int, custom: CustomScenarioInput,
    childName: string, k: nat)
    requires custom.keyPeople.Some? && k < |custom.keyPeople.value|
    ensures Includes(SystemPrompt(sceneNumber, totalScenes, None, Some(custom), childName), custom.keyPeople.value[k])
  {
    KeyPersonIncludedIn(Prose, sceneNumber, totalScenes, None, Some(custom), childName, custom.keyPeople.value, k);
  }

  lemma FinalSceneAskedIn(prose: ProseBlock -> string, sceneNumber: int, totalScenes: int,
    template: Option<SocialStoryTemplate>, custom: Option<CustomScenarioInput>, childName: string)
    ensures Includes(SystemPromptIn(prose, sceneNumber, totalScenes, template, custom, childName),
                     FinalSceneKey + (if sceneNumber == totalScenes then "true" else "false"))
  {
    LineIncludedIn(prose, sceneNumber, totalScenes, template, custom, childName, 17,
                   FinalSceneKey + (if sceneNumber == totalScenes then "true" else "false"));
  }

  /** The structure asks for `is_final_scene` true exactly on the last scene. */
  lemma FinalSceneAsked(sceneNumber: int, totalScenes: int, template: Option<SocialStoryTemplate>,
    custom: Option<CustomScenarioInput>, childName: string)
    ensures Includes(SystemPrompt(sceneNumber, totalScenes, template, custom, childName),
                     FinalSceneKey + (if sceneNumber == totalScenes then "true" else "false"))
  {
    FinalSceneAskedIn(Prose, sceneNumber, totalScenes, template, custom, childName);
  }

  lemma ChildNamedIn(prose: ProseBlock -> string, sceneNumber: int, totalScenes: int,
    template: Option<SocialStoryTemplate>, custom: Option<CustomScenarioInput>, childName: string)
    ensures Includes(SystemPromptIn(prose, sceneNumber, totalScenes, template, custom, childName),
                     "CHILD'S NAME: " + childName)
  {
    LineIncludedIn(prose, sceneNumber, totalScenes, template, custom, childName, 4, "CHILD'S NAME: " + childName);
  }

  /** The child's name is given on its own line of the system prompt. */
  lemma ChildNamed(sceneNumber: int, totalScenes: int, template: Option<SocialStoryTemplate>,
    custom: Option<CustomScenarioInput>, childName: string)
    ensures Includes(SystemPrompt(sceneNumber, totalScenes, template, custom, childName), "CHILD'S NAME: " + childName)
  {
    ChildNamedIn(Prose, sceneNumber, totalScenes, template, custom, childName);
  }

  lemma ScenarioNamedIn(prose: ProseBlock -> string, sceneNumber: int, totalScenes: int,
    template: SocialStoryTemplate, custom: Option<CustomScenarioInput>, childName: string)
    ensures Includes(SystemPromptIn(prose, sceneNumber, totalScenes, Some(template), custom, childName),
                     "SCENARIO: " + template.title)
  {
    LineIncludedIn(prose, sceneNumber, totalScenes, Some(template), custom, childName, 2, "SCENARIO: " + template.title);
  }

  /** The scenario named is the template's when there is one. */
  lemma TemplateScenarioNamed(sceneNumber: int, totalScenes: int, template: SocialStoryTemplate,
    custom: Option<CustomScenarioInput>, childName: string)
    ensures Includes(SystemPrompt(sceneNumber, totalScenes, Some(template), custom, childName), "SCENARIO: " + template.title)
  {
    ScenarioNamedIn(Prose, sceneNumber, totalScenes, template, custom, childName);
  }

  lemma CurrentSceneStatedIn(prose: ProseBlock -> string, sceneNumber: int, totalScenes: int,
    template: Option<SocialStoryTemplate>, custom: Option<CustomScenarioInput>, childName: string)
    ensures Includes(SystemPromptIn(prose, sceneNumber, totalScenes, template, custom, childName),
                     "CURRENT SCENE: " + IntToString(sceneNumber) + " of " + IntToString(totalScenes))
  {
    LineIncludedIn(prose, sceneNumber, totalScenes, template, custom, childName, 5,
                   "CURRENT SCENE: " + IntToString(sceneNumber) + " of " + IntToString(totalScenes));
  }

  /** The current scene and the total are stated. */
  lemma CurrentSceneStated(sceneNumber: int, totalScenes: int, template: Option<SocialStoryTemplate>,
    custom: Option<CustomScenarioInput>, childName: string)
    ensures Includes(SystemPrompt(sceneNumber, totalScenes, template, custom, childName),
                     "CURRENT SCENE: " + IntToString(sceneNumber) + " of " + IntToString(totalScenes))
  {
    CurrentSceneStatedIn(Prose, sceneNumber, totalScenes, template, custom, childName);
  }

  // ---------------------------------------------------------------------------
  // Extracting the scene text
  // ---------------------------------------------------------------------------

  /** `data.key` on a parsed body that is not `null`. */
  function Field(data: Json, key: string): Value {
    OptProp(Def(data), key)
  }

  /** The text of the first `output_text` part of the first `message` item of
      `output`; `undefined` when that path yields nothing truthy. Looking for
      the `type` of a `null` item throws. */
  function OutputText(data: Json): (r: Access)
    ensures r.Got? ==> r.value == Undefined || Truthy(r.value)
  {
    var output := Field(data, "output");
    if !(Truthy(output) && IsArray(output)) then Got(Undefined)
    else match FindByType(output.json.items, "message")
      case TypeError => TypeError
      case Got(message) =>
        var content := OptProp(message, "content");
        if !(Truthy(content) && IsArray(content)) then Got(Undefined)
        else match FindByType(content.json.items, "output_text")
          case TypeError => TypeError
          case Got(part) =>
            var text := OptProp(part, "text");
            if Truthy(text) then Got(text) else Got(Undefined)
  }

  /** `data.choices && data.choices[0]?.message?.content` */
  function ChoicesContent(data: Json): Value {
    var choices := Field(data, "choices");
    if Truthy(choices) then OptProp(OptProp(OptElem(choices, 0), "message"), "content") else choices
  }

  /** The first truthy value of a list, `undefined` when there is none. */
  function FirstTruthy(candidates: seq<Value>): (r: Value)
    ensures r == Undefined || Truthy(r)
    ensures Truthy(r) <==> exists i | 0 <= i < |candidates| :: Truthy(candidates[i])
  {
    if candidates == [] then Undefined
    else if Truthy(candidates[0]) then candidates[0]
    else FirstTruthy(candidates[1..])
  }

  lemma FirstTruthyOfThree(a: Value, b: Value, c: Value)
    ensures FirstTruthy([a, b, c]) ==
      if Truthy(a) then a else if Truthy(b) then b else if Truthy(c) then c else Undefined
  {
    assert [a, b, c][1..] == [b, c];
    assert [b, c][1..] == [c];
    assert [c][1..] == [];
    assert FirstTruthy([c]) == if Truthy(c) then c else Undefined;
    assert FirstTruthy([b, c]) == if Truthy(b) then b else FirstTruthy([c]);
  }

  /** The `content` the client settles on: the output text, else the first
      choice's message content, else the flat `content`, the first of them that
      is truthy. A `null` body throws. */
  function ExtractContent(data: Json): (r: Access)
    ensures data == JNull ==> r == TypeError
    ensures data != JNull && OutputText(data).TypeError? ==> r == TypeError
    ensures data != JNull && OutputText(data).Got? ==>
      r == Got(FirstTruthy([OutputText(data).value, ChoicesContent(data), Field(data, "content")]))
  {
    if data == JNull then TypeError
    else match OutputText(data)
      case TypeError => TypeError
      case Got(content) =>
        FirstTruthyOfThree(content, ChoicesContent(data), Field(data, "content"));
        if !Truthy(content) && Truthy(ChoicesContent(data)) then Got(ChoicesContent(data))
        else if !Truthy(content) && Truthy(Field(data, "content")) then Got(Field(data, "content"))
        else Got(content)
  }

  function Obj1(k: string, v: Json): Json {
    JObj(map[k := v])
  }

  function Obj2(k1: string, v1: Json, k2: string, v2: Json): Json {
    JObj(map[k1 := v1, k2 := v2])
  }

  /** The body of a Responses-style reply carrying `text`. */
  function ResponsesBody(text: string): Json {
    Obj1("output", JArr([Obj2("type", JStr("message"), "content",
      JArr([Obj2("type", JStr("output_text"), "text", JStr(text))]))]))
  }

  /** The body of a Chat-Completions-style reply carrying `text`. */
  function ChoicesBody(text: string): Json {
    Obj1("choices", JArr([Obj1("message", Obj1("content", JStr(text)))]))
  }

  /** A Responses-style reply yields its output text. */
  lemma ResponsesShape(text: string)
    requires text != ""
    ensures ExtractContent(ResponsesBody(text)) == Got(Def(JStr(text)))
  {
    var part := Obj2("type", JStr("output_text"), "text", JStr(text));
    var message := Obj2("type", JStr("message"), "content", JArr([part]));
    FindByTypeFirst([message], "message", 0);
    FindByTypeFirst([part], "output_text", 0);
    assert OutputText(ResponsesBody(text)) == Got(Def(JStr(text)));
  }

  /** A Chat-Completions-style reply yields its first choice's content. */
  lemma ChoicesShape(text: string)
    requires text != ""
    ensures ExtractContent(ChoicesBody(text)) == Got(Def(JStr(text)))
  {
    assert OutputText(ChoicesBody(text)) == Got(Undefined);
  }

  /** When the output text is there, the choices and the flat content are
      never consulted. */
  lemma OutputTextFirst(data: Json)
    requires data != JNull && OutputText(data).Got? && Truthy(OutputText(data).value)
    ensures ExtractContent(data) == OutputText(data)
  {
  }

  const NoContentMessage := "Unable to extract content from API response. Check console for details."
  const NotJsonMessage := "Model did not return valid JSON."

  /** How a scene request settles, given the reply of the text service. */
  function SceneOutcome(reply: Reply, parse: string -> Option<SocialStoryScene>, typeErrorMessage: string)
    : (r: Outcome<SocialStoryScene>)
    ensures reply.NetworkFailure? ==> r == Failure(reply.message)
    ensures reply.Replied? && !IsOk(reply.status) ==>
      r == Failure("Text API Error (" + IntToString(reply.status) + "): " + reply.text)
    ensures reply.Replied? && IsOk(reply.status) && reply.body.Unparsable? ==> r == Failure(reply.body.message)
    ensures r.Success? <==>
      && reply.Replied? && IsOk(reply.status) && reply.body.Parsed?
      && ExtractContent(reply.body.data).Got? && Truthy(ExtractContent(reply.body.data).value)
      && parse(ToText(ExtractContent(reply.body.data).value)).Some?
    ensures r.Success? ==> Some(r.value) == parse(ToText(ExtractContent(reply.body.data).value))
    ensures reply.Replied? && IsOk(reply.status) && reply.body.Parsed? && ExtractContent(reply.body.data).Got? ==>
      && (!Truthy(ExtractContent(reply.body.data).value) <==> r == Failure(NoContentMessage))
      && (Truthy(ExtractContent(reply.body.data).value) && r.Failure? ==> r.message == NotJsonMessage)
  {
    match reply
    case NetworkFailure(message) => Failure(message)
    case Replied(status, text, body) =>
      if !IsOk(status) then Failure("Text API Error (" + IntToString(status) + "): " + text)
      else match body
        case Unparsable(message) => Failure(message)
        case Parsed(data) =>
          match ExtractContent(data)
          case TypeError => Failure(typeErrorMessage)
          case Got(content) =>
            if !Truthy(content) then Failure(NoContentMessage)
            else match parse(ToText(content))
              case None => Failure(NotJsonMessage)
              case Some(scene) => Success(scene)
  }

  /** generateSocialStoryScene: builds both prompts, sends them, system prompt
      first, and settles on the parsed scene or on the error of the step that
      failed. */
  method GenerateSocialStoryScene(
    sceneNumber: int, totalScenes: int, template: Option<SocialStoryTemplate>,
    custom: Option<CustomScenarioInput>, childName: string, previous: seq<SocialStoryScene>,
    send: (string, string) -> Reply, parse: string -> Option<SocialStoryScene>, typeErrorMessage: string)
    returns (r: Outcome<SocialStoryScene>, systemPrompt: string, userPrompt: string)
    ensures systemPrompt == SystemPrompt(sceneNumber, totalScenes, template, custom, childName)
    ensures userPrompt == UserPrompt(sceneNumber, totalScenes, custom, previous)
    ensures r == SceneOutcome(send(systemPrompt, userPrompt), parse, typeErrorMessage)
  {
    r, systemPrompt, userPrompt :=
      GenerateSceneIn(Prose, sceneNumber, totalScenes, template, custom, childName, previous, send, parse, typeErrorMessage);
  }

  /** The same, for any wording of the system prompt's fixed blocks. */
  method GenerateSceneIn(prose: ProseBlock -> string,
    sceneNumber: int, totalScenes: int, template: Option<SocialStoryTemplate>,
    custom: Option<CustomScenarioInput>, childName: string, previous: seq<SocialStoryScene>,
    send: (string, string) -> Reply, parse: string -> Option<SocialStoryScene>, typeErrorMessage: string)
    returns (r: Outcome<SocialStoryScene>, systemPrompt: string, userPrompt: string)
    ensures systemPrompt == SystemPromptIn(prose, sceneNumber, totalScenes, template, custom, childName)
    ensures userPrompt == UserPrompt(sceneNumber, totalScenes, custom, previous)
    ensures r == SceneOutcome(send(systemPrompt, userPrompt), parse, typeErrorMessage)
  {
    systemPrompt := SystemPromptIn(prose, sceneNumber, totalScenes, template, custom, childName);
    userPrompt := BuildUserPrompt(sceneNumber, totalScenes, custom, previous);
    r := SceneOutcome(send(systemPrompt, userPrompt), parse, typeErrorMessage);
  }

  // ---------------------------------------------------------------------------
  // Image requests
  // ---------------------------------------------------------------------------

  /** The body posted to the image endpoint: `{ mode, prompt, image }`. */
  datatype ImageCall = ImageCall(mode: string, prompt: string, image: Option<string>)

  const NoMarks := "Do not include any artist signatures, watermarks, or text."
  const EditBefore := "STRICT COLOR AND IDENTITY CONSISTENCY REQUIRED.\n\nScene description: "
  const SheetBefore := "Create a clean character reference sheet in a simple cartoon children's-book style with crisp black outlines and flat colors.\nThe character should follow this description: "
  const GenerationMiddle := ". Art style: "
  const RequirementsMiddle := "\n\nRequirements:\n• Art style: "
  const GenerationAfter := ". " + NoMarks
  const RequirementsAfter := "\n• " + NoMarks

  function GenerationPrompt(description: string, artStyle: string): string {
    description + GenerationMiddle + artStyle + GenerationAfter
  }

  function EditPrompt(description: string, artStyle: string): string {
    EditBefore + description + RequirementsMiddle + artStyle + RequirementsAfter
  }

  function SheetPrompt(description: string, artStyle: string): string {
    SheetBefore + description + RequirementsMiddle + artStyle + RequirementsAfter
  }

  lemma PartsIncluded(a: string, b: string, c: string, d: string, e: string)
    ensures Includes(a + b + c + d + e, b) && Includes(a + b + c + d + e, d)
  {
    IncludesMiddle(a, b, c + d + e);
    assert a + b + (c + d + e) == a + b + c + d + e;
    IncludesMiddle(a + b + c, d, e);
  }

  /** generateImage's request: an edit of the reference image with the
      consistency prompt when there is a reference, a generation otherwise. */
  function SceneImageCall(description: string, artStyle: string, reference: Option<string>): (c: ImageCall)
    ensures c.mode == "edit" <==> Present(reference)
    ensures !Present(reference) ==> c.mode == "generation" && c.prompt == GenerationPrompt(description, artStyle)
    ensures Present(reference) ==> c.prompt == EditPrompt(description, artStyle)
    ensures c.image == reference
  {
    if Present(reference) then ImageCall("edit", EditPrompt(description, artStyle), reference)
    else ImageCall("generation", GenerationPrompt(description, artStyle), reference)
  }

  /** generateCharacterReference's request: always a generation, with no image. */
  function SheetCall(description: string, artStyle: string): (c: ImageCall)
    ensures c.mode == "generation" && c.image.None?
    ensures c.prompt == SheetPrompt(description, artStyle)
  {
    ImageCall("generation", SheetPrompt(description, artStyle), None)
  }

  /** Whichever prompt is chosen names the scene and the art style. */
  lemma SceneImagePromptNamesScene(description: string, artStyle: string, reference: Option<string>)
    ensures Includes(SceneImageCall(description, artStyle, reference).prompt, description)
    ensures Includes(SceneImageCall(description, artStyle, reference).prompt, artStyle)
  {
    if Present(reference) {
      PartsIncluded(EditBefore, description, RequirementsMiddle, artStyle, RequirementsAfter);
    } else {
      PartsIncluded("", description, GenerationMiddle, artStyle, GenerationAfter);
      assert "" + description == description;
    }
  }

  /** A reference sheet names the character's description and the art style. */
  lemma SheetPromptNamesCharacter(description: string, artStyle: string)
    ensures Includes(SheetCall(description, artStyle).prompt, description)
    ensures Includes(SheetCall(description, artStyle).prompt, artStyle)
  {
    PartsIncluded(SheetBefore, description, RequirementsMiddle, artStyle, RequirementsAfter);
  }

  /** The image endpoint edits exactly when the client asked for an edit. */
  lemma ProxyEditsIffReference(description: string, artStyle: string, reference: Option<string>)
    ensures
      var c := SceneImageCall(description, artStyle, reference);
      ImageProxy.IsEdit(ImageProxy.Request(Some(c.mode), Def(JStr(c.prompt)), c.image)) <==> Present(reference)
  {
  }

  /** A reference sheet is never an edit at the image endpoint. */
  lemma ProxyNeverEditsSheet(description: string, artStyle: string)
    ensures
      var c := SheetCall(description, artStyle);
      !ImageProxy.IsEdit(ImageProxy.Request(Some(c.mode), Def(JStr(c.prompt)), c.image))
  {
  }

  const Base64Prefix := "data:image/png;base64,"

  /** The image URL of an image-service body: `output_url`, else `url`, else
      (when `data` is an array) its first entry's `url` or wrapped `b64_json`,
      else the first of `images`, a string kept when it starts with "http"
      and wrapped otherwise, or an object's `url`. */
  function ExtractImageUrl(data: Json): (r: Access)
    ensures data == JNull ==> r == TypeError
    ensures data != JNull && Truthy(Field(data, "output_url")) ==> r == Got(Field(data, "output_url"))
    ensures data != JNull && !Truthy(Field(data, "output_url")) && Truthy(Field(data, "url")) ==> r == Got(Field(data, "url"))
  {
    if data == JNull then TypeError
    else if Truthy(Field(data, "output_url")) then Got(Field(data, "output_url"))
    else if Truthy(Field(data, "url")) then Got(Field(data, "url"))
    else
      var entries := Field(data, "data");
      if Truthy(entries) && IsArray(entries) then Got(FirstEntryUrl(OptElem(entries, 0)))
      else
        var images := Field(data, "images");
        if Truthy(images) && HasPositiveLength(images) then FirstImageUrl(OptElem(images, 0))
        else Got(Undefined)
  }

  /** `data[0]?.url`, else the wrapped `data[0]?.b64_json`, else `undefined`. */
  function FirstEntryUrl(first: Value): (r: Value)
    ensures Truthy(OptProp(first, "url")) ==> r == OptProp(first, "url")
    ensures !Truthy(OptProp(first, "url")) && Truthy(OptProp(first, "b64_json")) ==>
      r == Def(JStr(Base64Prefix + ToText(OptProp(first, "b64_json"))))
    ensures !Truthy(OptProp(first, "url")) && !Truthy(OptProp(first, "b64_json")) ==> r == Undefined
  {
    if Truthy(OptProp(first, "url")) then OptProp(first, "url")
    else if Truthy(OptProp(first, "b64_json")) then Def(JStr(Base64Prefix + ToText(OptProp(first, "b64_json"))))
    else Undefined
  }

  /** The first of `images`: a string is kept when it starts with "http" and
      wrapped as base64 PNG data otherwise; of anything else `.url` is taken. */
  function FirstImageUrl(img: Value): (r: Access)
    ensures IsString(img) && StartsWith(img.json.s, "http") ==> r == Got(img)
    ensures IsString(img) && !StartsWith(img.json.s, "http") ==> r == Got(Def(JStr(Base64Prefix + img.json.s)))
    ensures !IsString(img) ==> r == Prop(img, "url")
  {
    if IsString(img) then
      if StartsWith(img.json.s, "http") then Got(img) else Got(Def(JStr(Base64Prefix + img.json.s)))
    else Prop(img, "url")
  }

  /** When `data` is an array, `images` is never consulted. */
  lemma ImagesIgnoredWithDataArray(fields: map<string, Json>, images: Json)
    requires "data" in fields && fields["data"].JArr?
    ensures ExtractImageUrl(JObj(fields["images" := images])) == ExtractImageUrl(JObj(fields))
  {
    var a := JObj(fields["images" := images]);
    var b := JObj(fields);
    assert Field(a, "output_url") == Field(b, "output_url");
    assert Field(a, "url") == Field(b, "url");
    assert Field(a, "data") == Field(b, "data");
  }

  const NoUrlMessage := "No image URL found in response"

  /** The URL an image request settles on, or the message of its failure. */
  function ImageUrlOutcome(reply: Reply, typeErrorMessage: string): (r: Outcome<string>)
    ensures reply.NetworkFailure? ==> r == Failure(reply.message)
    ensures reply.Replied? && !IsOk(reply.status) ==>
      r == Failure("Image API Error (" + IntToString(reply.status) + "): " + reply.text)
    ensures r.Success? <==>
      reply.Replied? && IsOk(reply.status) && reply.body.Parsed?
      && ExtractImageUrl(reply.body.data).Got? && Truthy(ExtractImageUrl(reply.body.data).value)
    ensures r.Success? ==> r.value == ToText(ExtractImageUrl(reply.body.data).value)
  {
    match reply
    case NetworkFailure(message) => Failure(message)
    case Replied(status, text, body) =>
      if !IsOk(status) then Failure("Image API Error (" + IntToString(status) + "): " + text)
      else match body
        case Unparsable(message) => Failure(message)
        case Parsed(data) =>
          match ExtractImageUrl(data)
          case TypeError => Failure(typeErrorMessage)
          case Got(url) => if Truthy(url) then Success(ToText(url)) else Failure(NoUrlMessage)
  }

  /** The debug prompt of a failed image request: the failure, then the
      prompt that was attempted. */
  function FailedPrompt(message: string, prompt: string): (r: string)
    ensures StartsWith(r, "FAILED: " + message)
    ensures SuffixOf(" ATTEMPTED PROMPT: " + prompt, r)
  {
    var head := "FAILED: " + message;
    var tail := " \n\n ATTEMPTED PROMPT: " + prompt;
    var r := head + tail;
    assert r[..|head|] == head;
    assert r[|head|..] == tail;
    assert tail[|tail| - |" ATTEMPTED PROMPT: " + prompt|..] == " ATTEMPTED PROMPT: " + prompt;
    r
  }

  /** callBackendImageApi never throws: on success the URL with the prompt
      as sent; on any failure an empty URL with the failure and the prompt. */
  function CallBackendImageApi(call: ImageCall, reply: Reply, typeErrorMessage: string): (r: ImageGenerationResult)
    ensures ImageUrlOutcome(reply, typeErrorMessage).Success? ==>
      r == ImageGenerationResult(ImageUrlOutcome(reply, typeErrorMessage).value, call.prompt)
    ensures ImageUrlOutcome(reply, typeErrorMessage).Failure? ==>
      && r.imageUrl == ""
      && StartsWith(r.debugPrompt, "FAILED: " + ImageUrlOutcome(reply, typeErrorMessage).message)
      && SuffixOf(" ATTEMPTED PROMPT: " + call.prompt, r.debugPrompt)
  {
    match ImageUrlOutcome(reply, typeErrorMessage)
    case Success(url) => ImageGenerationResult(url, call.prompt)
    case Failure(message) =>
      ImageGenerationResult("", FailedPrompt(message, call.prompt))
  }

  /** A non-empty string in `url` comes back unchanged, whatever it starts with. */
  lemma UrlFieldKept(url: string)
    requires url != ""
    ensures ImageUrlOutcome(Replied(200, "", Parsed(Obj1("url", JStr(url)))), "") == Success(url)
  {
  }

  /** A string first in `images` comes back unchanged when it starts with
      "http", and as base64 PNG data otherwise. */
  lemma ImagesStringKeptOrWrapped(img: string)
    ensures StartsWith(img, "http") ==>
      ImageUrlOutcome(Replied(200, "", Parsed(Obj1("images", JArr([JStr(img)])))), "") == Success(img)
    ensures !StartsWith(img, "http") ==>
      ImageUrlOutcome(Replied(200, "", Parsed(Obj1("images", JArr([JStr(img)])))), "") == Success(Base64Prefix + img)
  {
  }

  /** generateImage */
  function GenerateImage(description: string, artStyle: string, reference: Option<string>,
                         send: ImageCall -> Reply, typeErrorMessage: string): ImageGenerationResult
  {
    var call := SceneImageCall(description, artStyle, reference);
    CallBackendImageApi(call, send(call), typeErrorMessage)
  }

  /** generateCharacterReference */
  function GenerateCharacterReference(description: string, artStyle: string,
                                      send: ImageCall -> Reply, typeErrorMessage: string): ImageGenerationResult
  {
    var call := SheetCall(description, artStyle);
    CallBackendImageApi(call, send(call), typeErrorMessage)
  }
}
