/**
 * The App component itself (App.tsx): its state hooks as the fields of one
 * object, and each handler as a method that applies that handler's state
 * updates in order. The services a handler awaits come in an `Env`; the
 * fresh id (`crypto.randomUUID()`), the clock (`Date.now()`), the user's
 * answer to a confirmation and whether writing localStorage fails are
 * parameters.
 */
module AppComponent {
  import opened Js
  import opened Types
  import JsMap
  import Storage
  import opened Adventure
  import opened SocialStoryFlow
  import opened StoryApp

  /** The social story before anything is generated. */
  const NoSocialStory := SocialStoryState(0, [], None, [], false, false)

  /** The art style a reopened saved story is shown with. */
  const SavedArtStyle := "children's book illustration"

  /** The component's fields that the social story's handlers write,
      besides the shared error. */
  datatype SocialFields = SocialFields(
    viewMode: ViewMode,
    selectedTemplate: Option<SocialStoryTemplate>,
    customScenario: Option<CustomScenarioInput>,
    socialStoryConfig: Option<SocialStoryConfig>,
    socialStory: SocialStoryState,
    savedStories: seq<SavedSocialStory>,
    currentStoryId: Option<string>,
    storySaved: bool)

  /** The scene loop of generateStory, drawing sheets with `sheet`. */
  function SceneRun(cfg: SocialStoryConfig, template: Option<SocialStoryTemplate>,
                    custom: Option<CustomScenarioInput>, env: Env, sheet: Drawer): Run
  {
    var total := TotalScenes(template, custom);
    StoryRun(SceneCount(total), SceneAsk(total, template, custom, cfg.childName, env), ScenePicture(cfg, sheet(cfg.childAppearance), sheet, env))
  }

  /** The scene loop of generateStory for a profile. */
  function GenerationRun(cfg: SocialStoryConfig, template: Option<SocialStoryTemplate>,
                         custom: Option<CustomScenarioInput>, env: Env): Run
  {
    SceneRun(cfg, template, custom, env, SheetsOf(cfg.artStyle, env))
  }

  /** The story generateStory leaves: the child's sheet set, every step the
      loop produced appended, and the people's references set. */
  function GeneratedStory(story: SocialStoryState, cfg: SocialStoryConfig, template: Option<SocialStoryTemplate>,
                          custom: Option<CustomScenarioInput>, env: Env, sheet: Drawer): SocialStoryState
  {
    StoryAfter(story.(childCharacterRef := Some(sheet(cfg.childAppearance))), SceneRun(cfg, template, custom, env, sheet),
               TotalScenes(template, custom), sheet)
  }

  /** What generateStory leaves in the social story's fields: its config, the
      story shown, and back to the selector when the loop failed. */
  function GeneratedSocial(s: SocialFields, cfg: SocialStoryConfig, template: Option<SocialStoryTemplate>,
                           custom: Option<CustomScenarioInput>, env: Env): SocialFields
  {
    s.(viewMode := if GenerationRun(cfg, template, custom, env).failure.None? then StoryView else Selector,
       socialStoryConfig := Some(cfg),
       socialStory := GeneratedStory(s.socialStory, cfg, template, custom, env, SheetsOf(cfg.artStyle, env)))
  }

  /** generateStory keeps the scenes the story had and appends after them.
      When no round failed, exactly the asked-for number of scenes is
      appended, each picture step for its own generated scene, and the story
      is complete; otherwise fewer are appended and the selector is back. */
  lemma GenerationOutcome(s: SocialFields, cfg: SocialStoryConfig, template: Option<SocialStoryTemplate>,
                          custom: Option<CustomScenarioInput>, env: Env)
    ensures var run := GenerationRun(cfg, template, custom, env);
      var r := GeneratedSocial(s, cfg, template, custom, env);
      var before := s.socialStory.scenes;
      && r.socialStoryConfig == Some(cfg)
      && |before| <= |r.socialStory.scenes| && r.socialStory.scenes[..|before|] == before
      && (run.failure.None? ==>
            && r.viewMode == StoryView && r.socialStory.isComplete && !r.socialStory.isGenerating
            && |r.socialStory.scenes| == |before| + SceneCount(TotalScenes(template, custom))
            && ScenesOf(r.socialStory.scenes[|before|..]) == run.generated)
      && (run.failure.Some? ==>
            && r.viewMode == Selector && r.socialStory.isComplete == s.socialStory.isComplete
            && |r.socialStory.scenes| < |before| + SceneCount(TotalScenes(template, custom)))
  {
    var total := TotalScenes(template, custom);
    var sheet := SheetsOf(cfg.artStyle, env);
    var ask := SceneAsk(total, template, custom, cfg.childName, env);
    var picture := ScenePicture(cfg, sheet(cfg.childAppearance), sheet, env);
    var run := StoryRun(SceneCount(total), ask, picture);
    var r := GeneratedSocial(s, cfg, template, custom, env);
    assert r.socialStory.scenes == s.socialStory.scenes + run.steps;
    assert r.socialStory.scenes[|s.socialStory.scenes|..] == run.steps;
    if run.failure.None? {
      ScenePictureOfScene(cfg, sheet(cfg.childAppearance), sheet, env);
      StoryRunSteps(SceneCount(total), ask, picture);
    }
  }

  /** Keeping a generated scene: a role no earlier scene introduced gets
      its sheet, in `peopleRefsMap` and in the story's `peopleRefs`. */
  method KeepScene(base: SocialStoryState, story: SocialStoryState, generatedScenes: seq<SocialStoryScene>,
                   peopleRefsMap: JsMap.Entries<string>, scene: SocialStoryScene, sheet: Drawer,
                   ghost steps: seq<SocialStorySceneStep>, ghost totalScenes: int)
    returns (story': SocialStoryState, generated': seq<SocialStoryScene>, peopleRefs': JsMap.Entries<string>)
    requires peopleRefsMap == RefsAfter(generatedScenes, sheet)
    requires story == Progress(base, generatedScenes, steps, totalScenes, sheet)
    ensures generated' == generatedScenes + [scene]
    ensures peopleRefs' == RefsAfter(generated', sheet)
    ensures story' == Progress(base, generated', steps, totalScenes, sheet)
  {
    generated' := generatedScenes + [scene];
    assert generated'[..|generated'| - 1] == generatedScenes;
    story', peopleRefs' := story, peopleRefsMap;
    var person := scene.personIntroduced;
    if person.Some? && !JsMap.Has(peopleRefsMap, person.value.role) {
      var personRef := sheet(person.value.description);
      SetAllAppend(base.peopleRefs, peopleRefsMap, person.value.role, personRef);
      peopleRefs' := JsMap.Set(peopleRefsMap, person.value.role, personRef);
      story' := story.(peopleRefs := JsMap.Set(story.peopleRefs, person.value.role, personRef));
    }
  }

  /** Appending the picture step of scene `i`, which is the last one unless
      `i < totalScenes`. */
  method AppendStep(base: SocialStoryState, story: SocialStoryState, step: SocialStorySceneStep, i: nat,
                    totalScenes: int, ghost generatedScenes: seq<SocialStoryScene>,
                    ghost steps: seq<SocialStorySceneStep>, ghost sheet: Drawer)
    returns (story': SocialStoryState)
    requires |steps| + 1 == i
    requires story == Progress(base, generatedScenes, steps, totalScenes, sheet)
    ensures story' == Progress(base, generatedScenes, steps + [step], totalScenes, sheet)
  {
    story' := story.(scenes := story.scenes + [step], isGenerating := i < totalScenes);
    assert story'.scenes == base.scenes + (steps + [step]);
  }

  /** Round `i` of generateStory's loop as the handler performs it: the
      scene's text, a sheet for a role no scene introduced before, and the
      scene's picture, stopping at the first call that throws. `ask` is
      generateSocialStoryScene, `picture` the picture step of the scene just
      kept, and `sheet` generateCharacterReference. */
  method SceneRound(i: nat, totalScenes: int, ask: Ask, picture: Picture, sheet: Drawer, base: SocialStoryState,
                    story: SocialStoryState, generatedScenes: seq<SocialStoryScene>,
                    peopleRefsMap: JsMap.Entries<string>, ghost steps: seq<SocialStorySceneStep>)
    returns (story': SocialStoryState, generated': seq<SocialStoryScene>, peopleRefs': JsMap.Entries<string>,
             ghost steps': seq<SocialStorySceneStep>, failure: Option<string>)
    requires 1 <= i && StoryRun(i - 1, ask, picture) == Run(generatedScenes, steps, None)
    requires peopleRefsMap == RefsAfter(generatedScenes, sheet)
    requires story == Progress(base, generatedScenes, steps, totalScenes, sheet)
    ensures StoryRun(i, ask, picture) == Run(generated', steps', failure)
    ensures peopleRefs' == RefsAfter(generated', sheet)
    ensures story' == Progress(base, generated', steps', totalScenes, sheet)
  {
    StoryRunNext(i, ask, picture, generatedScenes, steps);
    var scene := ask(i, generatedScenes);
    if scene.Failure? {
      return story, generatedScenes, peopleRefsMap, steps, Some(scene.message);
    }
    story', generated', peopleRefs' :=
      KeepScene(base, story, generatedScenes, peopleRefsMap, scene.value, sheet, steps, totalScenes);
    var sceneImage := picture(generatedScenes, scene.value);
    if sceneImage.Failure? {
      return story', generated', peopleRefs', steps, Some(sceneImage.message);
    }
    story' := AppendStep(base, story', sceneImage.value, i, totalScenes, generated', steps, sheet);
    steps', failure := steps + [sceneImage.value], None;
  }

  /** generateStory's loop, on a story that already holds the child's
      sheet: rounds 1 to `totalScenes`, until one fails. */
  method Generate(story: SocialStoryState, totalScenes: int, ask: Ask, picture: Picture, sheet: Drawer)
    returns (r: SocialStoryState, failure: Option<string>)
    ensures failure == StoryRun(SceneCount(totalScenes), ask, picture).failure
    ensures r == StoryAfter(story, StoryRun(SceneCount(totalScenes), ask, picture), totalScenes, sheet)
  {
    r := story;
    ghost var n := SceneCount(totalScenes);
    var generatedScenes: seq<SocialStoryScene> := [];
    var peopleRefsMap: JsMap.Entries<string> := [];
    ghost var steps: seq<SocialStorySceneStep> := [];
    assert r == Progress(story, generatedScenes, steps, totalScenes, sheet);
    var i := 1;
    while i <= totalScenes
      invariant 1 <= i <= n + 1
      invariant StoryRun(i - 1, ask, picture) == Run(generatedScenes, steps, None)
      invariant peopleRefsMap == RefsAfter(generatedScenes, sheet)
      invariant r == Progress(story, generatedScenes, steps, totalScenes, sheet)
      decreases totalScenes - i
    {
      var stopped;
      r, generatedScenes, peopleRefsMap, steps, stopped :=
        SceneRound(i, totalScenes, ask, picture, sheet, story, r, generatedScenes, peopleRefsMap, steps);
      if stopped.Some? {
        StoryRunStops(i, n, ask, picture);
        assert StoryRun(n, ask, picture) == Run(generatedScenes, steps, stopped);
        return r, stopped;
      }
      i := i + 1;
    }
    assert StoryRun(n, ask, picture) == Run(generatedScenes, steps, None);
    r := r.(isComplete := true, isGenerating := false);
    failure := None;
  }

  /** generateStory on the social story's fields: the child's sheet, the
      scene loop, then its config, the story and the view. */
  method GenerateSocial(s: SocialFields, cfg: SocialStoryConfig, template: Option<SocialStoryTemplate>,
                        custom: Option<CustomScenarioInput>, env: Env)
    returns (r: SocialFields, failure: Option<string>)
    requires JsMap.UniqueKeys(s.socialStory.peopleRefs)
    ensures failure == GenerationRun(cfg, template, custom, env).failure
    ensures r == GeneratedSocial(s, cfg, template, custom, env)
    ensures JsMap.UniqueKeys(r.socialStory.peopleRefs)
  {
    var totalScenes := TotalScenes(template, custom);
    var sheet := SheetsOf(cfg.artStyle, env);
    var childCharacterRefUrl := sheet(cfg.childAppearance);
    var story;
    story, failure := Generate(s.socialStory.(childCharacterRef := Some(childCharacterRefUrl)), totalScenes,
                               SceneAsk(totalScenes, template, custom, cfg.childName, env),
                               ScenePicture(cfg, childCharacterRefUrl, sheet, env), sheet);
    SetAllKeepsKeysUnique(s.socialStory.peopleRefs, RefsAfter(GenerationRun(cfg, template, custom, env).generated, sheet));
    r := s.(viewMode := if failure.None? then StoryView else Selector, socialStoryConfig := Some(cfg),
            socialStory := story);
  }

  /** The config handleCustomSubmit builds: no template and no
      customizations. */
  function CustomConfig(childName: string, childAppearance: string, childAge: Option<int>, artStyle: string)
    : SocialStoryConfig
  {
    SocialStoryConfig(None, childName, childAppearance, childAge, None, artStyle)
  }

  /** The config a saved story is reopened with: its template and child's
      name; no appearance, no customizations, the default art style. */
  function SavedConfig(story: SavedSocialStory): SocialStoryConfig {
    SocialStoryConfig(story.templateId, story.childName, "", None, Some(Customizations(None, None, None)), SavedArtStyle)
  }

  /** The component's state hooks: the adventure's in `game`, the social
      story's in `social`, and the adventure's config. */
  class App {
    var game: GameFields
    var config: Option<StoryConfig>
    var social: SocialFields

    /** The current index points into the history, or just before it before
        the adventure starts; the story's people map lists no role twice. */
    predicate Valid()
      reads this
    {
      -1 <= game.gameState.currentIndex < |game.gameState.history| && JsMap.UniqueKeys(social.socialStory.peopleRefs)
    }

    /** Mounting: the collection read back from local storage (`None` when
        nothing is stored or it does not parse) and the saved stories
        listed. */
    constructor (loaded: Option<seq<Character>>, store: Storage.StoryStore)
      ensures Valid()
      ensures game == GameFields(Initial, if loaded.Some? then loaded.value else [], None, None) && config.None?
      ensures social == SocialFields(Selector, None, None, None, NoSocialStory, store.SavedStories(), None, false)
    {
      game := GameFields(Initial, if loaded.Some? then loaded.value else [], None, None);
      config := None;
      social := SocialFields(Selector, None, None, None, NoSocialStory, store.SavedStories(), None, false);
    }

    // -------------------------------------------------------------------------
    // The adventure
    // -------------------------------------------------------------------------

    /** handleDeleteCharacter: once confirmed, every character with that id
        leaves the collection. */
    method HandleDeleteCharacter(id: string, confirmed: bool)
      requires Valid()
      modifies this
      ensures Valid()
      ensures game == old(game).(savedCharacters := if confirmed then WithoutCharacter(old(game.savedCharacters), id)
                                                    else old(game.savedCharacters))
      ensures config == old(config) && social == old(social)
    {
      if confirmed {
        game := game.(savedCharacters := WithoutCharacter(game.savedCharacters, id));
      }
    }

    /** restart: the initial game, no config, no error, nobody unlocked; the
        collection stays. */
    method Restart()
      requires Valid()
      modifies this
      ensures Valid()
      ensures game == GameFields(Initial, old(game.savedCharacters), None, None) && config.None?
      ensures social == old(social)
    {
      game := game.(gameState := Initial, error := None, justUnlocked := None);
      config := None;
    }

    /** handleBack: from the first step or before it, a restart; otherwise
        one step back, where the step's party and reference come back. */
    method HandleBack()
      requires Valid()
      modifies this
      ensures Valid()
      ensures old(game.gameState.currentIndex) <= 0 ==>
        game == GameFields(Initial, old(game.savedCharacters), None, None) && config.None?
      ensures old(game.gameState.currentIndex) > 0 ==>
        game == old(game).(gameState := Back(old(game.gameState))) && config == old(config)
      ensures social == old(social)
    {
      if game.gameState.currentIndex <= 0 {
        Restart();
        return;
      }
      game := game.(gameState := Back(game.gameState));
    }

    /** startStory: the config is kept, then the adventure's fields take
        what the handler leaves in them. */
    method StartStory(userConfig: StoryConfig, env: Env, newId: string, now: int)
      requires Valid()
      modifies this
      ensures Valid()
      ensures game == StartResult(old(game), userConfig, env, newId, now)
      ensures config == Some(userConfig) && social == old(social)
    {
      config := Some(userConfig);
      game := Start(game, userConfig, env, newId, now);
    }

    /** handleChoice: the adventure's fields take what the handler leaves
        in them. */
    method HandleChoice(choice: string, env: Env, newId: string, now: int)
      requires Valid()
      modifies this
      ensures Valid()
      ensures game == ChoiceResult(old(game), old(config), choice, env, newId, now)
      ensures config == old(config) && social == old(social)
    {
      game := Choose(game, config, choice, env, newId, now);
    }

    /** The prefetch effect, run once to completion: with a config and a
        scene that does not end the story, once a reference exists, each
        option whose key the cache lacked is prefetched into the cache. */
    method Prefetch(env: Env)
      requires Valid()
      modifies this
      ensures Valid()
      ensures !PrefetchRuns(old(config), old(game.gameState)) ==> game == old(game)
      ensures PrefetchRuns(old(config), old(game.gameState)) ==>
        game == old(game).(gameState := old(game.gameState).(prefetchCache :=
          Prefetched(old(game.gameState), old(config).value, Options(old(game.gameState).currentScene.value),
                     env.stepService, env.imageSend, env.typeErrorMessage)))
      ensures config == old(config) && social == old(social)
    {
      var snapshot := game.gameState;
      if config.None? || snapshot.currentScene.None? || snapshot.isEnding || !Present(snapshot.referenceImageUrl) {
        return;
      }
      var cfg := config.value;
      var options := Options(snapshot.currentScene.value);
      for i := 0 to |options|
        invariant game == old(game).(gameState := snapshot.(prefetchCache :=
          Prefetched(snapshot, cfg, options[..i], env.stepService, env.imageSend, env.typeErrorMessage)))
        invariant config == old(config) && social == old(social)
      {
        assert options[..i + 1][..i] == options[..i];
        var optText := options[i];
        var cacheKey := CacheKey(snapshot.currentDepth, optText);
        if cacheKey in snapshot.prefetchCache {
          continue;
        }
        var nextSceneData := env.stepService(cfg.startingSentence, cfg.artStyle, snapshot, Some(optText), []);
        if nextSceneData.Failure? || nextSceneData.value.newCharacter.Some? {
          continue;
        }
        var img := SocialStoryApi.GenerateImage(nextSceneData.value.imageDescription, cfg.artStyle,
                                                snapshot.referenceImageUrl, env.imageSend, env.typeErrorMessage);
        var prefetchedStep := StoryStep(nextSceneData.value, img.imageUrl, img.debugPrompt, snapshot.activeParty,
                                        snapshot.referenceImageUrl);
        game := game.(gameState := game.gameState.(prefetchCache := game.gameState.prefetchCache[cacheKey := prefetchedStep]));
      }
      assert options[..|options|] == options;
    }

    // -------------------------------------------------------------------------
    // The social story
    // -------------------------------------------------------------------------

    /** generateStory: the story is shown while it is generated; the error
        of a failed call is shown back on the selector, with the scenes
        generated so far kept in the story. */
    method GenerateStory(cfg: SocialStoryConfig, template: Option<SocialStoryTemplate>,
                         custom: Option<CustomScenarioInput>, env: Env)
      requires Valid()
      modifies this
      ensures Valid()
      ensures game == old(game).(error := GenerationRun(cfg, template, custom, env).failure)
      ensures config == old(config)
      ensures social == GeneratedSocial(old(social), cfg, template, custom, env)
    {
      var failure;
      social, failure := GenerateSocial(social, cfg, template, custom, env);
      game := game.(error := failure);
    }

    /** handleProfileSubmit: the story of the selected template. */
    method ProfileSubmit(cfg: SocialStoryConfig, env: Env)
      requires Valid()
      modifies this
      ensures Valid()
      ensures game == old(game).(error := GenerationRun(cfg, old(social.selectedTemplate), None, env).failure)
      ensures config == old(config)
      ensures social == GeneratedSocial(old(social), cfg, old(social.selectedTemplate), None, env)
    {
      GenerateStory(cfg, social.selectedTemplate, None, env);
    }

    /** handleCustomSubmit: the scenario is kept, then its story generated. */
    method CustomSubmit(scenarioInput: CustomScenarioInput, childName: string, childAppearance: string,
                        childAge: Option<int>, artStyle: string, env: Env)
      requires Valid()
      modifies this
      ensures Valid()
      ensures var cfg := CustomConfig(childName, childAppearance, childAge, artStyle);
        && game == old(game).(error := GenerationRun(cfg, None, Some(scenarioInput), env).failure)
        && social == GeneratedSocial(old(social).(customScenario := Some(scenarioInput)), cfg, None,
                                     Some(scenarioInput), env)
      ensures config == old(config)
    {
      social := social.(customScenario := Some(scenarioInput));
      GenerateStory(CustomConfig(childName, childAppearance, childAge, artStyle), None, Some(scenarioInput), env);
    }

    /** handleSelectTemplate: the template's profile form, for a story not
        saved yet. */
    method SelectTemplate(template: SocialStoryTemplate)
      requires Valid()
      modifies this
      ensures Valid()
      ensures game == old(game) && config == old(config)
      ensures social == old(social).(selectedTemplate := Some(template), storySaved := false,
                                     currentStoryId := None, viewMode := Profile)
    {
      social := social.(selectedTemplate := Some(template), storySaved := false, currentStoryId := None,
                        viewMode := Profile);
    }

    /** handleSelectCustom: the custom scenario form, for a story not saved
        yet. The template selected before stays selected. */
    method SelectCustom()
      requires Valid()
      modifies this
      ensures Valid()
      ensures game == old(game) && config == old(config)
      ensures social == old(social).(storySaved := false, currentStoryId := None, viewMode := CustomForm)
    {
      social := social.(storySaved := false, currentStoryId := None, viewMode := CustomForm);
    }

    /** handleViewLibrary */
    method ViewLibrary()
      requires Valid()
      modifies this
      ensures Valid()
      ensures game == old(game) && config == old(config)
      ensures social == old(social).(viewMode := LibraryView)
    {
      social := social.(viewMode := LibraryView);
    }

    /** The back button of the profile form, the custom form and the
        library: the selector again. */
    method ShowSelector()
      requires Valid()
      modifies this
      ensures Valid()
      ensures game == old(game) && config == old(config)
      ensures social == old(social).(viewMode := Selector)
    {
      social := social.(viewMode := Selector);
    }

    /** The viewer's back button: to the library for a saved story, to the
        selector otherwise, with an empty story and nothing saved. */
    method LeaveStory()
      requires Valid()
      modifies this
      ensures Valid()
      ensures game == old(game) && config == old(config)
      ensures social == old(social).(viewMode := if Present(old(social.currentStoryId)) then LibraryView else Selector,
                                     socialStory := NoSocialStory, currentStoryId := None, storySaved := false)
    {
      social := social.(viewMode := if Present(social.currentStoryId) then LibraryView else Selector,
                        socialStory := NoSocialStory, currentStoryId := None, storySaved := false);
    }

    /** handleSaveStory: without a config nothing happens; a saved story is
        stored in front of the others, marked saved and current, and the
        list is read again. A failed write changes nothing. */
    method HandleSaveStory(store: Storage.StoryStore, id: string, now: int, writeFails: bool)
      requires Valid()
      modifies this, store
      ensures Valid()
      ensures game == old(game) && config == old(config)
      ensures old(social.socialStoryConfig).None? || writeFails ==>
        social == old(social) && store.slot == old(store.slot)
      ensures old(social.socialStoryConfig).Some? && !writeFails ==>
        var saved := Storage.ConvertToSavedStory(old(social.socialStory), old(social.socialStoryConfig).value,
                                                 old(social.selectedTemplate), old(social.customScenario), id, now);
        && store.slot == Storage.Stories([saved] + old(store.SavedStories()))
        && social == old(social).(storySaved := true, currentStoryId := Some(id), savedStories := store.SavedStories())
    {
      if social.socialStoryConfig.None? {
        return;
      }
      var savedStory := store.SaveStory(social.socialStory, social.socialStoryConfig.value, social.selectedTemplate,
                                        social.customScenario, id, now, writeFails);
      if savedStory.Some? {
        social := social.(storySaved := true, currentStoryId := Some(savedStory.value.id),
                          savedStories := store.SavedStories());
      }
    }

    /** handleViewSavedStory: the viewed story's timestamp is updated, and
        the story is shown complete from its first scene, with its people's
        references in the order its record lists them. */
    method HandleViewSavedStory(story: SavedSocialStory, order: seq<string>, store: Storage.StoryStore,
                                now: int, writeFails: bool)
      requires Valid()
      requires JsMap.EnumeratesKeys(story.peopleRefs, order)
      modifies this, store
      ensures Valid()
      ensures game == old(game) && config == old(config)
      ensures (writeFails || forall i | 0 <= i < |old(store.SavedStories())| :: old(store.SavedStories())[i].id != story.id)
        ==> store.slot == old(store.slot)
      ensures !writeFails && (exists i | 0 <= i < |old(store.SavedStories())| :: old(store.SavedStories())[i].id == story.id) ==>
        var stories := old(store.SavedStories());
        var k := Storage.FirstIndex(stories, story.id);
        store.slot == Storage.Stories(stories[k := stories[k].(lastViewed := now)])
      ensures social == old(social).(
        savedStories := store.SavedStories(),
        socialStory := SocialStoryState(0, story.scenes, Some(story.childCharacterRef),
                                        JsMap.FromRecord(story.peopleRefs, order), true, false),
        socialStoryConfig := Some(SavedConfig(story)),
        currentStoryId := Some(story.id), storySaved := true, viewMode := StoryView)
      ensures forall role :: (JsMap.Get(social.socialStory.peopleRefs, role) ==
                               if role in story.peopleRefs then Some(story.peopleRefs[role]) else None)
    {
      store.UpdateLastViewed(story.id, now, writeFails);
      var refs := JsMap.FromRecord(story.peopleRefs, order);
      forall role
        ensures JsMap.Get(refs, role) == if role in story.peopleRefs then Some(story.peopleRefs[role]) else None
      {
        JsMap.GetOfFromRecord(story.peopleRefs, order, role);
      }
      social := social.(savedStories := store.SavedStories(),
                        socialStory := SocialStoryState(0, story.scenes, Some(story.childCharacterRef), refs, true, false),
                        socialStoryConfig := Some(SavedConfig(story)),
                        currentStoryId := Some(story.id), storySaved := true, viewMode := StoryView);
    }

    /** handleDeleteStory: after a successful delete the list is read
        again; a failed write changes nothing. */
    method HandleDeleteStory(store: Storage.StoryStore, id: string, writeFails: bool)
      requires Valid()
      modifies this, store
      ensures Valid()
      ensures game == old(game) && config == old(config)
      ensures writeFails ==> social == old(social) && store.slot == old(store.slot)
      ensures !writeFails ==>
        && store.slot == Storage.Stories(Storage.WithoutStory(old(store.SavedStories()), id))
        && social == old(social).(savedStories := store.SavedStories())
    {
      var success := store.DeleteStory(id, writeFails);
      if success {
        social := social.(savedStories := store.SavedStories());
      }
    }
  }
}
