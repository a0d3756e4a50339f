/**
 * The records the application passes around (src/types.ts). Optional
 * properties are `Option`s; `string | null` is `Option<string>` as well.
 */
module Types {
  import opened Js
  import JsMap

  // ---------------------------------------------------------------------------
  // Social stories
  // ---------------------------------------------------------------------------

  datatype Category = Medical | School | Social | DailyRoutine | Travel

  datatype SocialStoryTemplate = SocialStoryTemplate(
    id: string,
    title: string,
    category: Category,
    description: string,
    icon: string,
    estimatedScenes: int,
    keyPeople: seq<string>,
    commonFears: seq<string>,
    ageLow: int,
    ageHigh: int)

  datatype SpecificPerson = SpecificPerson(role: string, name: string)

  datatype Customizations = Customizations(
    specificLocation: Option<string>,
    specificPeople: Option<seq<SpecificPerson>>,
    additionalConcerns: Option<seq<string>>)

  datatype SocialStoryConfig = SocialStoryConfig(
    templateId: Option<string>,
    childName: string,
    childAppearance: string,
    childAge: Option<int>,
    customizations: Option<Customizations>,
    artStyle: string)

  datatype CustomScenarioInput = CustomScenarioInput(
    title: string,
    category: string,
    description: string,
    estimatedScenes: int,
    keyPeople: Option<seq<string>>,
    commonConcerns: Option<seq<string>>,
    specificDetails: Option<string>)

  datatype PersonIntroduced = PersonIntroduced(
    role: string,
    name: string,
    description: string,
    whatTheyDo: string)

  datatype SocialStoryScene = SocialStoryScene(
    sceneNumber: int,
    sceneTitle: string,
    sceneText: string,
    imageDescription: string,
    educationalNote: Option<string>,
    personIntroduced: Option<PersonIntroduced>,
    isFinalScene: bool)

  datatype SocialStorySceneStep = SocialStorySceneStep(
    scene: SocialStoryScene,
    imageUrl: string,
    debugPrompt: string)

  datatype SocialStoryState = SocialStoryState(
    currentSceneIndex: int,
    scenes: seq<SocialStorySceneStep>,
    childCharacterRef: Option<string>,
    peopleRefs: JsMap.Entries<string>,
    isComplete: bool,
    isGenerating: bool)

  datatype SavedSocialStory = SavedSocialStory(
    id: string,
    templateId: Option<string>,
    customTitle: Option<string>,
    childName: string,
    createdAt: int,
    lastViewed: int,
    scenes: seq<SocialStorySceneStep>,
    childCharacterRef: string,
    peopleRefs: map<string, string>,
    thumbnail: Option<string>)

  // ---------------------------------------------------------------------------
  // Branching stories
  // ---------------------------------------------------------------------------

  datatype StoryConfig = StoryConfig(
    startingSentence: string,
    artStyle: string,
    selectedCharacterIds: Option<seq<string>>)

  datatype NewCharacterInfo = NewCharacterInfo(name: string, description: string)

  datatype Character = Character(
    id: string,
    name: string,
    description: string,
    imageUrl: string,
    collectedAt: int)

  /** One generated scene of a branching story; `None` is an absent property. */
  datatype StoryResponse = StoryResponse(
    sceneText: string,
    imageDescription: string,
    characterConcept: Option<string>,
    characterName: Option<string>,
    newCharacter: Option<NewCharacterInfo>,
    option1: Option<string>,
    option2: Option<string>,
    isEnding: bool)

  datatype StoryStep = StoryStep(
    scene: StoryResponse,
    imageUrl: string,
    debugPrompt: string,
    activeParty: seq<string>,
    referenceImageUrl: Option<string>)

  /** The whole state of a branching adventure, replaced at every step. */
  datatype StoryState = StoryState(
    currentDepth: int,
    currentIndex: int,
    path: seq<string>,
    history: seq<StoryStep>,
    currentScene: Option<StoryResponse>,
    currentImageUrl: Option<string>,
    currentDebugPrompt: Option<string>,
    referenceImageUrl: Option<string>,
    activeParty: seq<string>,
    refDebugPrompt: Option<string>,
    isEnding: bool,
    prefetchCache: map<string, StoryStep>)

  datatype ImageGenerationResult = ImageGenerationResult(imageUrl: string, debugPrompt: string)

  /** A string value that JavaScript treats as true: present and non-empty. */
  predicate Present(s: Option<string>) {
    s.Some? && s.value != ""
  }
}
