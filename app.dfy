/**
 * The App component's state and handlers (App.tsx): the branching adventure
 * (start, choose, go back, restart, prefetch), the character collection, and
 * the linear social story (generate, view a saved one).
 *
 * Every `await` of the source is a call of a service in `Env`; the handlers
 * run to completion one at a time, so a handler's state updates are applied
 * in order and nothing else runs in between.
 */
module StoryApp {
  import opened Js
  import opened Types
  import JsMap
  import SocialStoryApi
  import Storage
  import opened Adventure
  import opened SocialStoryFlow

  /** The services the component calls. */
  datatype Env = Env(
    stepService: StepService,
    wordIn: (string, string) -> bool,
    merge: seq<string> -> SocialStoryApi.Outcome<string>,
    textSend: (string, string) -> SocialStoryApi.Reply,
    parseScene: string -> Option<SocialStoryScene>,
    imageSend: SocialStoryApi.ImageCall -> SocialStoryApi.Reply,
    typeErrorMessage: string)

  datatype ViewMode = Selector | Profile | CustomForm | StoryView | LibraryView

  function SheetsOf(artStyle: string, env: Env): Drawer {
    SheetDrawer(artStyle, env.imageSend, env.typeErrorMessage)
  }

  // ---------------------------------------------------------------------------
  // Steps of startStory
  // ---------------------------------------------------------------------------

  /** Steps A and B: the explicitly selected characters, then the saved
      characters the starting sentence names. */
  method ScanParty(saved: seq<Character>, userConfig: StoryConfig, wordIn: (string, string) -> bool)
    returns (p: Party)
    ensures p == InitialParty(saved, userConfig, wordIn)
  {
    p := Party([], []);
    var ids: seq<string> := [];
    if userConfig.selectedCharacterIds.Some? {
      ids := userConfig.selectedCharacterIds.value;
      for i := 0 to |ids|
        invariant p == ExplicitParty(saved, ids[..i])
      {
        assert ids[..i + 1][..i] == ids[..i];
        var c := FindById(saved, ids[i]);
        if c.Some? {
          p := Add(p, c.value);
        }
      }
      assert ids[..|ids|] == ids;
    }
    var start := p;
    for i := 0 to |saved|
      invariant p == PromptMatches(saved[..i], userConfig.startingSentence, wordIn, start)
    {
      assert saved[..i + 1][..i] == saved[..i];
      var c := saved[i];
      if !JsMap.Has(p.members, c.id) && Named(c, userConfig.startingSentence, wordIn) {
        p := Add(p, c);
      }
    }
    assert saved[..|saved|] == saved;
  }

  /** `character_name || "Main Character"`. */
  function MainName(data: StoryResponse): string {
    if Present(data.characterName) then data.characterName.value else "Main Character"
  }

  const FallbackPrefix := "A cute character fitting the story: "

  function PartyMatchNote(member: string, name: string): string {
    "Matched Party Member: " + member + " (AI said: " + name + "). "
  }

  function GlobalMatchNote(name: string): string {
    "Matched Global Collection: " + name + ". "
  }

  function NewMainNote(name: string): string {
    "Generated New Main: " + name + ". "
  }

  const FallbackNote := "Fallback Gen. "

  /** What step C leaves: the party, the character drawn for it if any, and
      the notes for the reference debug prompt. */
  datatype MainPick = MainPick(party: JsMap.Entries<Member>, newChar: Option<Character>, refDebug: string)

  /** Step C for a main character `name` that matches no party member: a
      saved character of that name joins; otherwise a new character is drawn,
      and joins when its sheet has an image. */
  function FromCollection(members: JsMap.Entries<Member>, name: string, concept: string, saved: seq<Character>,
                          sheetOf: Drawer, newId: string, now: int): MainPick
  {
    match FindMatchingCharacter(saved, name)
    case Some(c) => MainPick(JsMap.Set(members, c.id, AsMember(c)), None, GlobalMatchNote(c.name))
    case None =>
      var url := sheetOf(concept);
      if url == "" then MainPick(members, None, "")
      else
        var c := Character(newId, name, concept, url, now);
        MainPick(JsMap.Set(members, c.id, AsMember(c)), Some(c), NewMainNote(name))
  }

  /** Step C for a main character `name`: a party member of that name is
      kept as is. */
  function NamedMain(members: JsMap.Entries<Member>, name: string, concept: string, saved: seq<Character>,
                     sheetOf: Drawer, newId: string, now: int): MainPick
  {
    match FindPartyMember(members, name)
    case Some(m) => MainPick(members, None, PartyMatchNote(m.name, name))
    case None => FromCollection(members, name, concept, saved, sheetOf, newId, now)
  }

  /** Step C without a main character: an empty party gets a fallback hero
      when its sheet has an image. */
  function FallbackMain(members: JsMap.Entries<Member>, sentence: string, sheetOf: Drawer): MainPick {
    if |members| == 0 then
      var url := sheetOf(FallbackPrefix + sentence);
      if url == "" then MainPick(members, None, "")
      else MainPick(JsMap.Set(members, "fallback", Member("Hero", url)), None, FallbackNote)
    else MainPick(members, None, "")
  }

  /** Step C: the main character of the first scene joins the party. */
  function MainCharacter(members: JsMap.Entries<Member>, data: StoryResponse, saved: seq<Character>,
                         sentence: string, sheetOf: Drawer, newId: string, now: int): MainPick
  {
    if Present(data.characterConcept) then
      NamedMain(members, MainName(data), data.characterConcept.value, saved, sheetOf, newId, now)
    else FallbackMain(members, sentence, sheetOf)
  }

  /** Whoever joins from the collection or is drawn is added under one id. */
  lemma FromCollectionKeys(members: JsMap.Entries<Member>, name: string, concept: string, saved: seq<Character>,
                           sheetOf: Drawer, newId: string, now: int)
    ensures var r := FromCollection(members, name, concept, saved, sheetOf, newId, now);
      && (JsMap.UniqueKeys(members) ==> JsMap.UniqueKeys(r.party))
      && JsMap.Keys(members) <= JsMap.Keys(r.party) && |r.party| <= |members| + 1
  {
    match FindMatchingCharacter(saved, name)
    case Some(c) => JsMap.SetGrowsByOne(members, c.id, AsMember(c));
    case None => JsMap.SetGrowsByOne(members, newId, AsMember(Character(newId, name, concept, sheetOf(concept), now)));
  }

  lemma FallbackKeys(members: JsMap.Entries<Member>, sentence: string, sheetOf: Drawer)
    ensures var r := FallbackMain(members, sentence, sheetOf);
      && (JsMap.UniqueKeys(members) ==> JsMap.UniqueKeys(r.party))
      && JsMap.Keys(members) <= JsMap.Keys(r.party) && |r.party| <= |members| + 1
  {
    JsMap.SetGrowsByOne(members, "fallback", Member("Hero", sheetOf(FallbackPrefix + sentence)));
  }

  /** Step C keeps every id the party has, in order and each once, and adds
      at most one member. */
  lemma MainCharacterKeys(members: JsMap.Entries<Member>, data: StoryResponse, saved: seq<Character>,
                          sentence: string, sheetOf: Drawer, newId: string, now: int)
    ensures var r := MainCharacter(members, data, saved, sentence, sheetOf, newId, now);
      && (JsMap.UniqueKeys(members) ==> JsMap.UniqueKeys(r.party))
      && JsMap.Keys(members) <= JsMap.Keys(r.party) && |r.party| <= |members| + 1
  {
    if Present(data.characterConcept) {
      FromCollectionKeys(members, MainName(data), data.characterConcept.value, saved, sheetOf, newId, now);
    } else {
      FallbackKeys(members, sentence, sheetOf);
    }
  }

  /** A main character the party does not hold joins it: the matched saved
      character under its id, or else the drawn character under the new id
      when its sheet has an image; no other member changes. */
  lemma FromCollectionJoins(members: JsMap.Entries<Member>, name: string, concept: string, saved: seq<Character>,
                            sheetOf: Drawer, newId: string, now: int)
    ensures var r := FromCollection(members, name, concept, saved, sheetOf, newId, now);
      FindMatchingCharacter(saved, name).Some? ==>
        var c := FindMatchingCharacter(saved, name).value;
        && r.newChar.None?
        && JsMap.Get(r.party, c.id) == Some(AsMember(c))
        && forall k | k != c.id :: JsMap.Get(r.party, k) == JsMap.Get(members, k)
    ensures var r := FromCollection(members, name, concept, saved, sheetOf, newId, now);
      FindMatchingCharacter(saved, name).None? ==>
        && (r.newChar.Some? <==> sheetOf(concept) != "")
        && (r.newChar.None? ==> r.party == members)
        && (r.newChar.Some? ==>
              && r.newChar.value == Character(newId, name, concept, sheetOf(concept), now)
              && JsMap.Get(r.party, newId) == Some(AsMember(r.newChar.value))
              && forall k | k != newId :: JsMap.Get(r.party, k) == JsMap.Get(members, k))
  {
  }

  /** A main character some party member's name matches adds nobody. */
  lemma PartyMemberKept(members: JsMap.Entries<Member>, name: string, concept: string, saved: seq<Character>,
                        sheetOf: Drawer, newId: string, now: int)
    requires FindPartyMember(members, name).Some?
    ensures NamedMain(members, name, concept, saved, sheetOf, newId, now).party == members
    ensures NamedMain(members, name, concept, saved, sheetOf, newId, now).newChar.None?
  {
  }

  /** Without a main character, only an empty party changes: it gets the
      fallback hero, when the hero's sheet has an image. */
  lemma FallbackOnlyForEmptyParty(members: JsMap.Entries<Member>, sentence: string, sheetOf: Drawer)
    ensures FallbackMain(members, sentence, sheetOf).newChar.None?
    ensures members != [] ==> FallbackMain(members, sentence, sheetOf).party == members
    ensures members == [] && sheetOf(FallbackPrefix + sentence) != "" ==>
      FallbackMain(members, sentence, sheetOf).party == [("fallback", Member("Hero", sheetOf(FallbackPrefix + sentence)))]
    ensures members == [] && sheetOf(FallbackPrefix + sentence) == "" ==> FallbackMain(members, sentence, sheetOf).party == []
  {
  }

  /** Step C for a main character the party does not hold. */
  method AddFromCollection(members: JsMap.Entries<Member>, name: string, concept: string, saved: seq<Character>,
                           sheetOf: Drawer, newId: string, now: int)
    returns (party: JsMap.Entries<Member>, newChar: Option<Character>, refDebug: string)
    ensures MainPick(party, newChar, refDebug) == FromCollection(members, name, concept, saved, sheetOf, newId, now)
  {
    party, newChar, refDebug := members, None, "";
    var existingGlobal := FindMatchingCharacter(saved, name);
    if existingGlobal.Some? {
      party := JsMap.Set(party, existingGlobal.value.id, AsMember(existingGlobal.value));
      refDebug := GlobalMatchNote(existingGlobal.value.name);
    } else {
      var imageUrl := sheetOf(concept);
      if imageUrl != "" {
        refDebug := NewMainNote(name);
        var c := Character(newId, name, concept, imageUrl, now);
        newChar := Some(c);
        party := JsMap.Set(party, c.id, AsMember(c));
      }
    }
  }

  /** Step C as the handler performs it. */
  method AddMainCharacter(members: JsMap.Entries<Member>, data: StoryResponse, saved: seq<Character>,
                          sentence: string, sheetOf: Drawer, newId: string, now: int)
    returns (party: JsMap.Entries<Member>, newChar: Option<Character>, refDebug: string)
    ensures MainPick(party, newChar, refDebug) == MainCharacter(members, data, saved, sentence, sheetOf, newId, now)
  {
    party, newChar, refDebug := members, None, "";
    if Present(data.characterConcept) {
      var name := MainName(data);
      var existingPartyMember := FindPartyMember(members, name);
      if existingPartyMember.Some? {
        refDebug := PartyMatchNote(existingPartyMember.value.name, name);
      } else {
        party, newChar, refDebug := AddFromCollection(members, name, data.characterConcept.value, saved, sheetOf, newId, now);
      }
    } else if |members| == 0 {
      var imageUrl := sheetOf(FallbackPrefix + sentence);
      if imageUrl != "" {
        refDebug := FallbackNote;
        party := JsMap.Set(party, "fallback", Member("Hero", imageUrl));
      }
    }
  }

  /** The composite note of step D. */
  function MergingNote(n: nat): string {
    "Merging " + NatToString(n) + " characters."
  }

  /** The reference debug prompt: step C's notes, and the merge note when
      more than one image is merged. */
  function OpeningNote(refDebug: string, images: seq<string>): string {
    if |images| > 1 then refDebug + MergingNote(|images|) else refDebug
  }

  /** `setSavedCharacters(prev => [newChar, ...prev])`, when there is one. */
  function Prepended(newChar: Option<Character>, saved: seq<Character>): (r: seq<Character>)
    ensures newChar.None? ==> r == saved
    ensures newChar.Some? ==> |r| == |saved| + 1 && r[0] == newChar.value && r[1..] == saved
  {
    if newChar.Some? then [newChar.value] + saved else saved
  }

  /** The state step 4 sets: the first scene drawn against the reference, as
      the only step of a new history. */
  function Opening(data: StoryResponse, images: seq<string>, reference: string, refDebug: string,
                   userConfig: StoryConfig, env: Env): (r: StoryState)
    ensures Started(r) && r.currentIndex == 0 && r.currentDepth == 1
    ensures |r.history| == 1 && r.path == [] && r.prefetchCache == map[] && !r.isEnding
    ensures r.currentScene == Some(data) && r.activeParty == images && r.referenceImageUrl == Some(reference)
    ensures r.refDebugPrompt == Some(refDebug)
    ensures r.currentImageUrl == Some(SocialStoryApi.GenerateImage(data.imageDescription, userConfig.artStyle,
                                                                  Some(reference), env.imageSend,
                                                                  env.typeErrorMessage).imageUrl)
  {
    var img := SocialStoryApi.GenerateImage(data.imageDescription, userConfig.artStyle, Some(reference),
                                            env.imageSend, env.typeErrorMessage);
    var newStep := StoryStep(data, img.imageUrl, img.debugPrompt, images, Some(reference));
    Initial.(currentDepth := 1, currentIndex := 0, history := [newStep], path := [],
             currentScene := Some(data), currentImageUrl := Some(img.imageUrl),
             currentDebugPrompt := Some(img.debugPrompt), referenceImageUrl := Some(reference),
             activeParty := images, refDebugPrompt := Some(refDebug))
  }

  // ---------------------------------------------------------------------------
  // Steps of handleChoice
  // ---------------------------------------------------------------------------

  /** Step A: the scene of the cached step for the choice with its image and
      debug prompt, or a freshly generated scene with neither (`""`). */
  function NextScene(gs: StoryState, userConfig: StoryConfig, choice: string, stepService: StepService)
    : SocialStoryApi.Outcome<(StoryResponse, string, string)>
  {
    var key := CacheKey(gs.currentDepth, choice);
    if key in gs.prefetchCache then
      var cached := gs.prefetchCache[key];
      SocialStoryApi.Success((cached.scene, cached.imageUrl, cached.debugPrompt))
    else match stepService(userConfig.startingSentence, userConfig.artStyle, gs, Some(choice), [])
      case Failure(m) => SocialStoryApi.Failure(m)
      case Success(data) => SocialStoryApi.Success((data, "", ""))
  }

  /** A cached choice never asks the story generator. */
  lemma CachedChoiceSkipsGenerator(gs: StoryState, userConfig: StoryConfig, choice: string,
                                   s1: StepService, s2: StepService)
    requires CacheKey(gs.currentDepth, choice) in gs.prefetchCache
    ensures NextScene(gs, userConfig, choice, s1) == NextScene(gs, userConfig, choice, s2)
    ensures NextScene(gs, userConfig, choice, s1).Success?
    ensures NextScene(gs, userConfig, choice, s1).value.0 == gs.prefetchCache[CacheKey(gs.currentDepth, choice)].scene
  {
  }

  /** What step B leaves: the party's images, the character drawn if any, and
      the character shown as unlocked. */
  datatype UnlockPick = UnlockPick(nextParty: seq<string>, newChar: Option<Character>, unlocked: Option<Character>)

  /** Step B: a scene that brings a character. A returning friend joins the
      party only if their image is not in it yet, and is then shown as
      unlocked; a new character is drawn, and joins the collection and the
      party only when its sheet has an image. */
  function UnlockStep(data: StoryResponse, party: seq<string>, saved: seq<Character>, sheetOf: Drawer,
                      newId: string, now: int): (r: UnlockPick)
    ensures r.unlocked.None? ==> r.nextParty == party
    ensures r.unlocked.Some? ==> r.nextParty == party + [r.unlocked.value.imageUrl]
    ensures data.newCharacter.None? ==> r == UnlockPick(party, None, None)
    ensures data.newCharacter.Some? && FindMatchingCharacter(saved, data.newCharacter.value.name).Some? ==>
      var friend := FindMatchingCharacter(saved, data.newCharacter.value.name).value;
      && r.newChar.None?
      && (r.unlocked.Some? <==> friend.imageUrl !in party)
      && (r.unlocked.Some? ==> r.unlocked.value == friend)
    ensures r.newChar.Some? ==>
      && data.newCharacter.Some?
      && FindMatchingCharacter(saved, data.newCharacter.value.name).None?
      && r.unlocked == r.newChar
      && r.newChar.value == Character(newId, data.newCharacter.value.name, data.newCharacter.value.description,
                                      sheetOf(data.newCharacter.value.description), now)
      && r.newChar.value.imageUrl != ""
    ensures data.newCharacter.Some? && FindMatchingCharacter(saved, data.newCharacter.value.name).None? ==>
      (r.newChar.Some? <==> sheetOf(data.newCharacter.value.description) != "") && r.unlocked == r.newChar
  {
    match data.newCharacter
    case None => UnlockPick(party, None, None)
    case Some(info) =>
      match FindMatchingCharacter(saved, info.name)
      case Some(friend) =>
        if friend.imageUrl in party then UnlockPick(party, None, None)
        else UnlockPick(party + [friend.imageUrl], None, Some(friend))
      case None =>
        var url := sheetOf(info.description);
        if url == "" then UnlockPick(party, None, None)
        else
          var c := Character(newId, info.name, info.description, url, now);
          UnlockPick(party + [url], Some(c), Some(c))
  }

  /** Step B as the handler performs it. */
  method Unlock(data: StoryResponse, party: seq<string>, saved: seq<Character>, sheetOf: Drawer,
                newId: string, now: int)
    returns (nextParty: seq<string>, newChar: Option<Character>, unlocked: Option<Character>)
    ensures UnlockPick(nextParty, newChar, unlocked) == UnlockStep(data, party, saved, sheetOf, newId, now)
  {
    nextParty, newChar, unlocked := party, None, None;
    if data.newCharacter.Some? {
      var newName := data.newCharacter.value.name;
      var existingCharacter := FindMatchingCharacter(saved, newName);
      if existingCharacter.Some? {
        if existingCharacter.value.imageUrl !in nextParty {
          nextParty := nextParty + [existingCharacter.value.imageUrl];
          unlocked := existingCharacter;
        }
      } else {
        var imageUrl := sheetOf(data.newCharacter.value.description);
        if imageUrl != "" {
          var c := Character(newId, newName, data.newCharacter.value.description, imageUrl, now);
          newChar, unlocked := Some(c), Some(c);
          nextParty := nextParty + [imageUrl];
        }
      }
    }
  }

  predicate NoDuplicates(images: seq<string>) {
    forall i, j | 0 <= i < j < |images| :: images[i] != images[j]
  }

  /** A returning friend never puts an image in the party twice. */
  lemma ReturningFriendNoDuplicate(data: StoryResponse, party: seq<string>, saved: seq<Character>, sheetOf: Drawer,
                                   newId: string, now: int)
    requires NoDuplicates(party)
    requires data.newCharacter.Some? && FindMatchingCharacter(saved, data.newCharacter.value.name).Some?
    ensures NoDuplicates(UnlockStep(data, party, saved, sheetOf, newId, now).nextParty)
  {
    var r := UnlockStep(data, party, saved, sheetOf, newId, now);
    if r.unlocked.Some? {
      AppendFreshKeepsNoDuplicates(party, r.unlocked.value.imageUrl);
    }
  }

  lemma AppendFreshKeepsNoDuplicates(images: seq<string>, x: string)
    requires NoDuplicates(images) && x !in images
    ensures NoDuplicates(images + [x])
  {
    forall i, j | 0 <= i < j < |images + [x]| ensures (images + [x])[i] != (images + [x])[j] {
      if j == |images| {
        assert (images + [x])[i] == images[i];
      }
    }
  }

  /** Step B and its merge: only a party change followed by a successful
      merge replaces the reference and discards the cached image. */
  predicate Invalidates(u: UnlockPick, merge: seq<string> -> SocialStoryApi.Outcome<string>) {
    u.unlocked.Some? && merge(u.nextParty).Success?
  }

  /** Steps B to D: the step committed for a scene, given its cached image and
      debug prompt (`""` when there is none) and the outcome of step B. */
  function ChoiceStep(gs: StoryState, userConfig: StoryConfig, data: StoryResponse, image: string, debug: string,
                      u: UnlockPick, env: Env): StoryStep
  {
    var reference := if Invalidates(u, env.merge) then Some(env.merge(u.nextParty).value) else gs.referenceImageUrl;
    var held := if Invalidates(u, env.merge) then "" else image;
    if held == "" then
      var img := SocialStoryApi.GenerateImage(data.imageDescription, userConfig.artStyle, reference,
                                              env.imageSend, env.typeErrorMessage);
      StoryStep(data, img.imageUrl, img.debugPrompt, u.nextParty, reference)
    else StoryStep(data, image, debug, u.nextParty, reference)
  }

  /** The step keeps the scene and the party; only an invalidating merge
      replaces the reference, and a step without a cached image, or whose
      cached image the merge discarded, is drawn against the reference it
      keeps. */
  lemma ChoiceStepDraws(gs: StoryState, userConfig: StoryConfig, data: StoryResponse, image: string, debug: string,
                        u: UnlockPick, env: Env)
    ensures var r := ChoiceStep(gs, userConfig, data, image, debug, u, env);
      && r.scene == data && r.activeParty == u.nextParty
      && (Invalidates(u, env.merge) ==> r.referenceImageUrl == Some(env.merge(u.nextParty).value))
      && (!Invalidates(u, env.merge) ==> r.referenceImageUrl == gs.referenceImageUrl)
      && (image != "" && !Invalidates(u, env.merge) ==> r.imageUrl == image && r.debugPrompt == debug)
      && (image == "" || Invalidates(u, env.merge) ==>
            var img := SocialStoryApi.GenerateImage(data.imageDescription, userConfig.artStyle, r.referenceImageUrl,
                                                    env.imageSend, env.typeErrorMessage);
            r.imageUrl == img.imageUrl && r.debugPrompt == img.debugPrompt)
  {
  }

  /** Step A as the handler performs it. */
  method FindScene(gs: StoryState, userConfig: StoryConfig, choice: string, stepService: StepService)
    returns (r: SocialStoryApi.Outcome<(StoryResponse, string, string)>)
    ensures r == NextScene(gs, userConfig, choice, stepService)
  {
    var cacheKey := CacheKey(gs.currentDepth, choice);
    if cacheKey in gs.prefetchCache {
      var cachedStep := gs.prefetchCache[cacheKey];
      return SocialStoryApi.Success((cachedStep.scene, cachedStep.imageUrl, cachedStep.debugPrompt));
    }
    var generated := stepService(userConfig.startingSentence, userConfig.artStyle, gs, Some(choice), []);
    if generated.Failure? {
      return SocialStoryApi.Failure(generated.message);
    }
    r := SocialStoryApi.Success((generated.value, "", ""));
  }

  /** Steps B to D as the handler performs them, after step B's pick. */
  method DrawStep(gs: StoryState, userConfig: StoryConfig, data: StoryResponse, image: string, debug: string,
                  u: UnlockPick, env: Env)
    returns (step: StoryStep)
    ensures step == ChoiceStep(gs, userConfig, data, image, debug, u, env)
  {
    var nextImageUrl, nextDebugPrompt := image, debug;
    var nextReferenceImage := gs.referenceImageUrl;
    if u.unlocked.Some? {
      var compositeRef := env.merge(u.nextParty);
      if compositeRef.Success? {
        nextReferenceImage := Some(compositeRef.value);
        nextImageUrl := "";
      }
    }
    if nextImageUrl == "" {
      var imgResult := SocialStoryApi.GenerateImage(data.imageDescription, userConfig.artStyle, nextReferenceImage,
                                                    env.imageSend, env.typeErrorMessage);
      nextImageUrl, nextDebugPrompt := imgResult.imageUrl, imgResult.debugPrompt;
    }
    step := StoryStep(data, nextImageUrl, nextDebugPrompt, u.nextParty, nextReferenceImage);
  }

  // ---------------------------------------------------------------------------
  // Steps of generateStory
  // ---------------------------------------------------------------------------

  /** The enhanced prompt, built piece by piece. */
  method BuildEnhancedPrompt(config: SocialStoryConfig, scene: SocialStoryScene, refs: JsMap.Entries<string>,
                             generated: seq<SocialStoryScene>)
    returns (prompt: string)
    ensures prompt == EnhancedPrompt(config, scene, refs, generated)
  {
    var childLine := config.childName + " is " + config.childAppearance + ". ";
    assert childLine == ChildLine(config);
    var people := "";
    if scene.personIntroduced.Some? {
      var p := scene.personIntroduced.value;
      people := p.name + " (" + p.role + ") is " + p.description + ". ";
    } else {
      var sceneText := scene.sceneText + " " + scene.imageDescription;
      for i := 0 to |refs|
        invariant people == RecurringLines(refs[..i], generated, sceneText)
      {
        assert refs[..i + 1][..i] == refs[..i];
        var role := refs[i].0;
        var line := "";
        if Includes(ToLower(sceneText), ToLower(role)) {
          var originalIntroduction := Introduction(generated, role);
          if originalIntroduction.Some? {
            line := originalIntroduction.value.name + " is " + originalIntroduction.value.description + ". ";
          }
        }
        assert line == RecurringLine(generated, sceneText, role);
        people := people + line;
      }
      assert refs[..|refs|] == refs;
    }
    assert people == PeopleLines(scene, refs, generated);
    prompt := childLine + people + scene.imageDescription;
  }

  /** Stage 6 for the last generated scene: its references, their composite,
      the enhanced prompt and the picture. */
  method ImageForScene(config: SocialStoryConfig, childRef: string, generated: seq<SocialStoryScene>,
                       refs: JsMap.Entries<string>, sheetOf: Drawer, env: Env)
    returns (r: SocialStoryApi.Outcome<SocialStorySceneStep>)
    requires generated != [] && refs == RefsAfter(generated, sheetOf)
    ensures r == SceneStep(config, childRef, generated, sheetOf, env.merge, env.imageSend, env.typeErrorMessage)
  {
    var scene := generated[|generated| - 1];
    var characterRefsForScene: seq<string> := [];
    if childRef != "" {
      characterRefsForScene := characterRefsForScene + [childRef];
    }
    if scene.personIntroduced.Some? {
      var peopleRef := JsMap.Get(refs, scene.personIntroduced.value.role);
      if peopleRef.Some? && peopleRef.value != "" {
        characterRefsForScene := characterRefsForScene + [peopleRef.value];
      }
    }
    assert characterRefsForScene == SceneRefs(childRef, scene, refs);
    var compositeRef: Option<string> := None;
    if |characterRefsForScene| > 0 {
      var merged := env.merge(characterRefsForScene);
      if merged.Failure? {
        return SocialStoryApi.Failure(merged.message);
      }
      compositeRef := Some(merged.value);
    }
    var prompt := BuildEnhancedPrompt(config, scene, refs, generated);
    var img := SocialStoryApi.GenerateImage(prompt, config.artStyle, compositeRef, env.imageSend, env.typeErrorMessage);
    r := SocialStoryApi.Success(SocialStorySceneStep(scene, img.imageUrl, img.debugPrompt));
  }

  /** The scenes of a list of scene steps. */
  function ScenesOf(steps: seq<SocialStorySceneStep>): (r: seq<SocialStoryScene>)
    ensures |r| == |steps|
    ensures forall i | 0 <= i < |steps| :: r[i] == steps[i].scene
  {
    seq(|steps|, i requires 0 <= i < |steps| => steps[i].scene)
  }

  // ---------------------------------------------------------------------------
  // The handlers of the adventure, as values
  // ---------------------------------------------------------------------------

  /** The component's fields that the adventure's handlers write, besides
      the config. */
  datatype GameFields = GameFields(gameState: StoryState, savedCharacters: seq<Character>,
                                   justUnlocked: Option<Character>, error: Option<string>)

  /** A drawn main character is the one step C names: the scene's concept
      under the main name and the new id, with a sheet that has an image; the
      party holds it under that id. */
  lemma MainCharacterDraws(members: JsMap.Entries<Member>, data: StoryResponse, saved: seq<Character>,
                           sentence: string, sheetOf: Drawer, newId: string, now: int)
    ensures var r := MainCharacter(members, data, saved, sentence, sheetOf, newId, now);
      r.newChar.Some? ==>
        && Present(data.characterConcept)
        && FindPartyMember(members, MainName(data)).None?
        && FindMatchingCharacter(saved, MainName(data)).None?
        && r.newChar.value == Character(newId, MainName(data), data.characterConcept.value,
                                        sheetOf(data.characterConcept.value), now)
        && r.newChar.value.imageUrl != ""
        && JsMap.Get(r.party, newId) == Some(AsMember(r.newChar.value))
  {
    if Present(data.characterConcept) {
      FromCollectionJoins(members, MainName(data), data.characterConcept.value, saved, sheetOf, newId, now);
    } else {
      FallbackOnlyForEmptyParty(members, sentence, sheetOf);
    }
  }

  /** The adventure's fields after startStory, given those before it. */
  function StartResult(f: GameFields, userConfig: StoryConfig, env: Env, newId: string, now: int): GameFields
  {
    var p := InitialParty(f.savedCharacters, userConfig, env.wordIn);
    match env.stepService(userConfig.startingSentence, userConfig.artStyle, Initial, None, Known(p.known))
    case Failure(m) => f.(justUnlocked := None, error := Some(m))
    case Success(data) =>
      var sheetOf := SheetsOf(userConfig.artStyle, env);
      var pick := MainCharacter(p.members, data, f.savedCharacters, userConfig.startingSentence, sheetOf, newId, now);
      MainCharacterDraws(p.members, data, f.savedCharacters, userConfig.startingSentence, sheetOf, newId, now);
      var images := Images(pick.party);
      var after := f.(savedCharacters := Prepended(pick.newChar, f.savedCharacters), justUnlocked := pick.newChar,
                      error := None);
      match Reference(images, env.merge)
      case Failure(m) => after.(error := Some(m))
      case Success(ref) => after.(gameState := Opening(data, images, ref, OpeningNote(pick.refDebug, images), userConfig, env))
  }

  /** startStory: a failed first scene or a failed merge leaves the error and
      the game state found; otherwise the opening state replaces it. A drawn
      main character is collected and shown as unlocked before the merge, so
      even when the merge fails. */
  lemma StartOutcome(f: GameFields, userConfig: StoryConfig, env: Env, newId: string, now: int)
    ensures var r := StartResult(f, userConfig, env, newId, now);
      && (r.error.None? ==>
            && Started(r.gameState) && r.gameState.currentIndex == 0 && |r.gameState.history| == 1
            && r.gameState.path == [] && r.gameState.prefetchCache == map[])
      && (r.error.Some? ==> r.gameState == f.gameState)
      && (r.justUnlocked.None? ==> r.savedCharacters == f.savedCharacters)
      && (r.justUnlocked.Some? ==>
            && r.savedCharacters == [r.justUnlocked.value] + f.savedCharacters
            && r.justUnlocked.value.id == newId && r.justUnlocked.value.imageUrl != "")
  {
    var p := InitialParty(f.savedCharacters, userConfig, env.wordIn);
    var first := env.stepService(userConfig.startingSentence, userConfig.artStyle, Initial, None, Known(p.known));
    if first.Success? {
      var sheetOf := SheetsOf(userConfig.artStyle, env);
      var pick := MainCharacter(p.members, first.value, f.savedCharacters, userConfig.startingSentence, sheetOf, newId, now);
      MainCharacterDraws(p.members, first.value, f.savedCharacters, userConfig.startingSentence, sheetOf, newId, now);
      var images := Images(pick.party);
      var after := f.(savedCharacters := Prepended(pick.newChar, f.savedCharacters), justUnlocked := pick.newChar,
                      error := None);
      var ref := Reference(images, env.merge);
      if ref.Success? {
        var gs := Opening(first.value, images, ref.value, OpeningNote(pick.refDebug, images), userConfig, env);
        assert StartResult(f, userConfig, env, newId, now) == after.(gameState := gs);
      } else {
        assert StartResult(f, userConfig, env, newId, now) == after.(error := Some(ref.message));
      }
    } else {
      assert StartResult(f, userConfig, env, newId, now) == f.(justUnlocked := None, error := Some(first.message));
    }
  }

  /** The adventure's fields after handleChoice, given those before it. */
  function ChoiceResult(f: GameFields, config: Option<StoryConfig>, choice: string, env: Env,
                        newId: string, now: int): GameFields
  {
    if config.None? then f
    else match NextScene(f.gameState, config.value, choice, env.stepService)
      case Failure(m) => f.(justUnlocked := None, error := Some(m))
      case Success(found) =>
        var data, image, debug := found.0, found.1, found.2;
        var u := UnlockStep(data, f.gameState.activeParty, f.savedCharacters, SheetsOf(config.value.artStyle, env), newId, now);
        var step := ChoiceStep(f.gameState, config.value, data, image, debug, u, env);
        GameFields(Commit(f.gameState, choice, step), Prepended(u.newChar, f.savedCharacters), u.unlocked, None)
  }

  /** handleChoice without a config does nothing; a failed story step leaves
      the error and the game as it was; a cached choice always succeeds. */
  lemma ChoiceFailure(f: GameFields, config: Option<StoryConfig>, choice: string, env: Env, newId: string, now: int)
    ensures var r := ChoiceResult(f, config, choice, env, newId, now);
      && (config.None? ==> r == f)
      && (config.Some? && r.error.Some? ==>
            r.gameState == f.gameState && r.savedCharacters == f.savedCharacters && r.justUnlocked.None?)
      && (config.Some? && CacheKey(f.gameState.currentDepth, choice) in f.gameState.prefetchCache ==> r.error.None?)
  {
  }

  /** A successful choice keeps the cache, grows the party by exactly the
      character shown as unlocked, and collects a newly drawn character. */
  lemma ChoiceParty(f: GameFields, config: Option<StoryConfig>, choice: string, env: Env, newId: string, now: int)
    ensures var r := ChoiceResult(f, config, choice, env, newId, now);
      config.Some? && r.error.None? ==>
        && r.gameState.prefetchCache == f.gameState.prefetchCache
        && (r.justUnlocked.None? ==> r.gameState.activeParty == f.gameState.activeParty)
        && (r.justUnlocked.Some? ==>
              r.gameState.activeParty == f.gameState.activeParty + [r.justUnlocked.value.imageUrl])
        && (r.savedCharacters == f.savedCharacters ||
            (r.justUnlocked.Some? && r.savedCharacters == [r.justUnlocked.value] + f.savedCharacters))
  {
    if config.Some? {
      var found := NextScene(f.gameState, config.value, choice, env.stepService);
      if found.Success? {
        var u := UnlockStep(found.value.0, f.gameState.activeParty, f.savedCharacters,
                            SheetsOf(config.value.artStyle, env), newId, now);
        ChoiceStepDraws(f.gameState, config.value, found.value.0, found.value.1, found.value.2, u, env);
      }
    }
  }

  /** A successful choice commits its step right after the current one. */
  lemma ChoiceAdvances(f: GameFields, config: Option<StoryConfig>, choice: string, env: Env, newId: string, now: int)
    ensures var r := ChoiceResult(f, config, choice, env, newId, now);
      config.Some? && r.error.None? && Started(f.gameState) ==>
        && Started(r.gameState)
        && r.gameState.currentIndex == f.gameState.currentIndex + 1
        && r.gameState.history[..r.gameState.currentIndex] == f.gameState.history[..f.gameState.currentIndex + 1]
        && r.gameState.path == f.gameState.path[..f.gameState.currentIndex] + [choice]
  {
    var r := ChoiceResult(f, config, choice, env, newId, now);
    if config.Some? && r.error.None? && Started(f.gameState) {
      var before := f.gameState.history[..f.gameState.currentIndex + 1];
      assert r.gameState.history == before + [r.gameState.history[r.gameState.currentIndex]];
      assert (before + [r.gameState.history[r.gameState.currentIndex]])[..|before|] == before;
    }
  }

  /** handleChoice: nothing happens without a config; a failed story step
      leaves the error and the game as it was; otherwise the step for the
      choice is committed after the current one, the party grows by exactly
      the character shown as unlocked, and a newly drawn character is
      collected. A cached choice always succeeds. */
  lemma ChoiceOutcome(f: GameFields, config: Option<StoryConfig>, choice: string, env: Env, newId: string, now: int)
    ensures var r := ChoiceResult(f, config, choice, env, newId, now);
      && (config.None? ==> r == f)
      && (config.Some? && r.error.Some? ==>
            r.gameState == f.gameState && r.savedCharacters == f.savedCharacters && r.justUnlocked.None?)
      && (config.Some? && CacheKey(f.gameState.currentDepth, choice) in f.gameState.prefetchCache ==> r.error.None?)
      && (config.Some? && r.error.None? ==>
            && r.gameState.prefetchCache == f.gameState.prefetchCache
            && (r.justUnlocked.None? ==> r.gameState.activeParty == f.gameState.activeParty)
            && (r.justUnlocked.Some? ==>
                  r.gameState.activeParty == f.gameState.activeParty + [r.justUnlocked.value.imageUrl])
            && (r.savedCharacters == f.savedCharacters ||
                (r.justUnlocked.Some? && r.savedCharacters == [r.justUnlocked.value] + f.savedCharacters)))
      && (config.Some? && r.error.None? && Started(f.gameState) ==>
            && Started(r.gameState)
            && r.gameState.currentIndex == f.gameState.currentIndex + 1
            && r.gameState.history[..r.gameState.currentIndex] == f.gameState.history[..f.gameState.currentIndex + 1]
            && r.gameState.path == f.gameState.path[..f.gameState.currentIndex] + [choice])
  {
    ChoiceFailure(f, config, choice, env, newId, now);
    ChoiceParty(f, config, choice, env, newId, now);
    ChoiceAdvances(f, config, choice, env, newId, now);
  }

  /** Committing a step keeps the current index inside the history. */
  lemma CommitKeepsPosition(gs: StoryState, choice: string, step: StoryStep)
    requires -1 <= gs.currentIndex < |gs.history|
    ensures var r := Commit(gs, choice, step);
      0 <= r.currentIndex < |r.history| && r.history[r.currentIndex] == step
  {
  }

  /** startStory as the handler performs it, on the adventure's fields. */
  method Start(f: GameFields, userConfig: StoryConfig, env: Env, newId: string, now: int) returns (r: GameFields)
    ensures r == StartResult(f, userConfig, env, newId, now)
    ensures -1 <= f.gameState.currentIndex < |f.gameState.history| ==>
      -1 <= r.gameState.currentIndex < |r.gameState.history|
  {
    StartOutcome(f, userConfig, env, newId, now);
    r := f.(justUnlocked := None, error := None);
    var party := ScanParty(f.savedCharacters, userConfig, env.wordIn);
    var sceneData := env.stepService(userConfig.startingSentence, userConfig.artStyle, Initial, None, Known(party.known));
    if sceneData.Failure? {
      return r.(error := Some(sceneData.message));
    }
    var data := sceneData.value;
    var members, newChar, refDebug := AddMainCharacter(party.members, data, f.savedCharacters,
                                                       userConfig.startingSentence, SheetsOf(userConfig.artStyle, env),
                                                       newId, now);
    if newChar.Some? {
      r := r.(savedCharacters := [newChar.value] + r.savedCharacters, justUnlocked := newChar);
    }
    var partyImages := Images(members);
    var reference, note := MergeParty(partyImages, refDebug, env.merge);
    if reference.Failure? {
      return r.(error := Some(reference.message));
    }
    r := r.(gameState := Opening(data, partyImages, reference.value, note, userConfig, env));
  }

  /** Step D as the handler performs it: several images are merged into the
      reference, and the note says how many; a single image is the
      reference; no image leaves it empty. */
  method MergeParty(partyImages: seq<string>, refDebug: string, merge: seq<string> -> SocialStoryApi.Outcome<string>)
    returns (reference: SocialStoryApi.Outcome<string>, note: string)
    ensures reference == Reference(partyImages, merge)
    ensures note == OpeningNote(refDebug, partyImages)
  {
    note := refDebug;
    var refImageUrl := "";
    if |partyImages| > 1 {
      note := note + MergingNote(|partyImages|);
      var merged := merge(partyImages);
      if merged.Failure? {
        return merged, note;
      }
      refImageUrl := merged.value;
    } else if |partyImages| == 1 {
      refImageUrl := partyImages[0];
    }
    reference := SocialStoryApi.Success(refImageUrl);
  }

  /** handleChoice as the handler performs it, on the adventure's fields. */
  method Choose(f: GameFields, config: Option<StoryConfig>, choice: string, env: Env, newId: string, now: int)
    returns (r: GameFields)
    ensures r == ChoiceResult(f, config, choice, env, newId, now)
    ensures -1 <= f.gameState.currentIndex < |f.gameState.history| ==>
      -1 <= r.gameState.currentIndex < |r.gameState.history|
  {
    if config.None? {
      return f;
    }
    var cfg := config.value;
    var found := FindScene(f.gameState, cfg, choice, env.stepService);
    if found.Failure? {
      return f.(justUnlocked := None, error := Some(found.message));
    }
    var nextSceneData, nextImageUrl, nextDebugPrompt := found.value.0, found.value.1, found.value.2;
    var nextParty, newChar, unlocked := Unlock(nextSceneData, f.gameState.activeParty, f.savedCharacters,
                                               SheetsOf(cfg.artStyle, env), newId, now);
    var newStep := DrawStep(f.gameState, cfg, nextSceneData, nextImageUrl, nextDebugPrompt,
                            UnlockPick(nextParty, newChar, unlocked), env);
    if -1 <= f.gameState.currentIndex < |f.gameState.history| {
      CommitKeepsPosition(f.gameState, choice, newStep);
    }
    r := GameFields(Commit(f.gameState, choice, newStep), Prepended(newChar, f.savedCharacters), unlocked, None);
  }

  // ---------------------------------------------------------------------------
  // The scene loop of generateStory, as a value
  // ---------------------------------------------------------------------------

  /** The number of scenes `for (i = 1; i <= total; i++)` generates. */
  function SceneCount(total: int): nat {
    if total < 0 then 0 else total
  }

  /** Where the scene loop stands: the scenes generated, the scene steps
      appended to the story, and the message of the error that ended the
      loop, if one did. */
  datatype Run = Run(generated: seq<SocialStoryScene>, steps: seq<SocialStorySceneStep>, failure: Option<string>)

  /** How the loop asks for scene `n` given the scenes before it. */
  type Ask = (nat, seq<SocialStoryScene>) -> SocialStoryApi.Outcome<SocialStoryScene>

  /** How the loop pictures a scene kept after the scenes before it. */
  type Picture = (seq<SocialStoryScene>, SocialStoryScene) -> SocialStoryApi.Outcome<SocialStorySceneStep>

  /** The text model's reply to the system prompt for scene `n` and the
      user prompt that lists the earlier scenes. */
  function SceneAsk(total: int, template: Option<SocialStoryTemplate>, custom: Option<CustomScenarioInput>,
                    childName: string, env: Env): Ask {
    (n: nat, previous: seq<SocialStoryScene>) =>
      SocialStoryApi.SceneOutcome(env.textSend(SocialStoryApi.SystemPrompt(n, total, template, custom, childName),
                                               SocialStoryApi.UserPrompt(n, total, custom, previous)),
                                  env.parseScene, env.typeErrorMessage)
  }

  /** Stage 6 for the scene just kept. */
  function ScenePicture(config: SocialStoryConfig, childRef: string, sheet: Drawer, env: Env): Picture {
    (previous: seq<SocialStoryScene>, scene: SocialStoryScene) =>
      SceneStep(config, childRef, previous + [scene], sheet, env.merge, env.imageSend, env.typeErrorMessage)
  }

  /** A picture step is the step of the scene it pictures. */
  ghost predicate PicturesScene(picture: Picture) {
    forall previous, scene :: picture(previous, scene).Success? ==> picture(previous, scene).value.scene == scene
  }

  lemma ScenePictureOfScene(config: SocialStoryConfig, childRef: string, sheet: Drawer, env: Env)
    ensures PicturesScene(ScenePicture(config, childRef, sheet, env))
  {
    var picture := ScenePicture(config, childRef, sheet, env);
    forall previous, scene | picture(previous, scene).Success?
      ensures picture(previous, scene).value.scene == scene
    {
      assert (previous + [scene])[|previous + [scene]| - 1] == scene;
    }
  }

  /** Round `n` of the loop after rounds that did not fail. A failed reply
      ends the loop before the scene is kept, a failed picture after it is
      kept but before its step is. */
  function Round(prev: Run, n: nat, ask: Ask, picture: Picture): (r: Run)
    ensures r.failure.None? ==>
      && |r.generated| == |prev.generated| + 1 && r.generated[..|prev.generated|] == prev.generated
      && |r.steps| == |prev.steps| + 1 && r.steps[..|prev.steps|] == prev.steps
    ensures r.failure.Some? ==> r.steps == prev.steps && |prev.generated| <= |r.generated| <= |prev.generated| + 1
  {
    match ask(n, prev.generated)
    case Failure(m) => prev.(failure := Some(m))
    case Success(scene) =>
      match picture(prev.generated, scene)
      case Failure(m) => Run(prev.generated + [scene], prev.steps, Some(m))
      case Success(step) => Run(prev.generated + [scene], prev.steps + [step], None)
  }

  /** The loop after its first `n` rounds. */
  function StoryRun(n: nat, ask: Ask, picture: Picture): (r: Run)
    ensures |r.steps| <= |r.generated| <= n
    ensures r.failure.None? ==> |r.generated| == n && |r.steps| == n
    ensures r.failure.Some? ==> |r.steps| < n
    decreases n, 1
  {
    if n == 0 then Run([], [], None) else Rounds(n, ask, picture)
  }

  /** The loop after round `n`: where it stopped, if it stopped before, and
      otherwise one more round. */
  function Rounds(n: nat, ask: Ask, picture: Picture): (r: Run)
    requires 1 <= n
    ensures |r.steps| <= |r.generated| <= n
    ensures r.failure.None? ==> |r.generated| == n && |r.steps| == n
    ensures r.failure.Some? ==> |r.steps| < n
    decreases n, 0
  {
    var prev := StoryRun(n - 1, ask, picture);
    if prev.failure.Some? then prev else Round(prev, n, ask, picture)
  }

  /** One more round of a loop that has not failed: a failed question stops
      it with the scenes so far, a failed picture stops it with the new scene
      kept, and otherwise the scene and its step are appended. */
  lemma StoryRunNext(i: nat, ask: Ask, picture: Picture, generated: seq<SocialStoryScene>,
                     steps: seq<SocialStorySceneStep>)
    requires 1 <= i && StoryRun(i - 1, ask, picture) == Run(generated, steps, None)
    ensures ask(i, generated).Failure? ==>
      StoryRun(i, ask, picture) == Run(generated, steps, Some(ask(i, generated).message))
    ensures ask(i, generated).Success? && picture(generated, ask(i, generated).value).Failure? ==>
      StoryRun(i, ask, picture) ==
        Run(generated + [ask(i, generated).value], steps, Some(picture(generated, ask(i, generated).value).message))
    ensures ask(i, generated).Success? && picture(generated, ask(i, generated).value).Success? ==>
      StoryRun(i, ask, picture) ==
        Run(generated + [ask(i, generated).value], steps + [picture(generated, ask(i, generated).value).value], None)
  {
  }

  /** Once the loop has failed it stays where it stopped. */
  lemma {:induction false} StoryRunStops(i: nat, n: nat, ask: Ask, picture: Picture)
    requires i <= n && StoryRun(i, ask, picture).failure.Some?
    ensures StoryRun(n, ask, picture) == StoryRun(i, ask, picture)
    decreases n - i
  {
    if i < n {
      StoryRunStops(i, n - 1, ask, picture);
    }
  }

  /** In a loop that did not fail, the steps are the generated scenes' own. */
  lemma {:induction false} StoryRunSteps(n: nat, ask: Ask, picture: Picture)
    requires PicturesScene(picture) && StoryRun(n, ask, picture).failure.None?
    ensures ScenesOf(StoryRun(n, ask, picture).steps) == StoryRun(n, ask, picture).generated
  {
    if n > 0 {
      var prev := StoryRun(n - 1, ask, picture);
      var r := StoryRun(n, ask, picture);
      StoryRunSteps(n - 1, ask, picture);
      forall i | 0 <= i < n ensures ScenesOf(r.steps)[i] == r.generated[i] {
        if i < n - 1 {
          assert r.steps[i] == prev.steps[i] && r.generated[i] == prev.generated[i];
          assert ScenesOf(prev.steps)[i] == prev.generated[i];
        }
      }
    }
  }

  /** Every round of `r` replays: the round after its first `k` scenes and
      steps yields its first `k + 1`. */
  predicate Replays(r: Run, ask: Ask, picture: Picture) {
    && |r.steps| == |r.generated|
    && forall k | 0 <= k < |r.steps| ::
         Round(Run(r.generated[..k], r.steps[..k], None), k + 1, ask, picture)
         == Run(r.generated[..k + 1], r.steps[..k + 1], None)
  }

  /** In a loop that did not fail, scene `k + 1` was asked for with the `k`
      scenes before it, and its step was pictured after them: each round
      replays from the scenes and steps before it. */
  lemma {:induction false} StoryRunReplays(n: nat, ask: Ask, picture: Picture)
    requires StoryRun(n, ask, picture).failure.None?
    ensures Replays(StoryRun(n, ask, picture), ask, picture)
  {
    if n > 0 {
      var prev := StoryRun(n - 1, ask, picture);
      var r := StoryRun(n, ask, picture);
      StoryRunReplays(n - 1, ask, picture);
      assert r.generated[..n - 1] == prev.generated && r.steps[..n - 1] == prev.steps;
      assert r.generated[..n] == r.generated && r.steps[..n] == r.steps;
      assert Run(prev.generated, prev.steps, None) == prev;
      forall k | 0 <= k < n
        ensures Round(Run(r.generated[..k], r.steps[..k], None), k + 1, ask, picture)
             == Run(r.generated[..k + 1], r.steps[..k + 1], None)
      {
        if k < n - 1 {
          assert r.generated[..k] == prev.generated[..k] && r.generated[..k + 1] == prev.generated[..k + 1];
          assert r.steps[..k] == prev.steps[..k] && r.steps[..k + 1] == prev.steps[..k + 1];
        }
      }
    }
  }

  /** A round that did not fail kept the reply to its prompt and appended
      the picture drawn for it. */
  lemma RoundKeepsReply(prev: Run, n: nat, ask: Ask, picture: Picture)
    requires Round(prev, n, ask, picture).failure.None?
    ensures var r := Round(prev, n, ask, picture);
      && ask(n, prev.generated) == SocialStoryApi.Success(r.generated[|prev.generated|])
      && picture(prev.generated, r.generated[|prev.generated|]) == SocialStoryApi.Success(r.steps[|prev.steps|])
  {
  }

  /** `new Map(prev.peopleRefs)` with every entry of `refs` set in order. */
  function SetAll(m: JsMap.Entries<string>, refs: JsMap.Entries<string>): JsMap.Entries<string> {
    if refs == [] then m
    else JsMap.Set(SetAll(m, refs[..|refs| - 1]), refs[|refs| - 1].0, refs[|refs| - 1].1)
  }

  /** Setting a new key last is setting it after all the others. */
  lemma SetAllAppend(m: JsMap.Entries<string>, refs: JsMap.Entries<string>, k: string, v: string)
    requires !JsMap.Has(refs, k)
    ensures SetAll(m, JsMap.Set(refs, k, v)) == JsMap.Set(SetAll(m, refs), k, v)
  {
    var r := JsMap.Set(refs, k, v);
    assert r == refs + [(k, v)];
    assert r[..|r| - 1] == refs;
  }

  lemma {:induction false} SetAllKeepsKeysUnique(m: JsMap.Entries<string>, refs: JsMap.Entries<string>)
    requires JsMap.UniqueKeys(m)
    ensures JsMap.UniqueKeys(SetAll(m, refs))
  {
    if refs != [] {
      SetAllKeepsKeysUnique(m, refs[..|refs| - 1]);
      JsMap.SetKeepsKeysUnique(SetAll(m, refs[..|refs| - 1]), refs[|refs| - 1].0, refs[|refs| - 1].1);
    }
  }

  /** A key of `refs` gets its value from `refs`; any other key keeps the
      value it had. */
  lemma {:induction false} SetAllGet(m: JsMap.Entries<string>, refs: JsMap.Entries<string>, k: string)
    requires JsMap.UniqueKeys(refs)
    ensures JsMap.Get(SetAll(m, refs), k) == if JsMap.Has(refs, k) then JsMap.Get(refs, k) else JsMap.Get(m, k)
  {
    if refs != [] {
      var init := refs[..|refs| - 1];
      var last, v := refs[|refs| - 1].0, refs[|refs| - 1].1;
      assert JsMap.UniqueKeys(init);
      assert !JsMap.Has(init, last) by {
        forall i | 0 <= i < |init| ensures JsMap.Keys(init)[i] != last {
          assert init[i] == refs[i];
        }
      }
      assert refs == JsMap.Set(init, last, v) by {
        assert refs == init + [(last, v)];
      }
      SetAllGet(m, init, k);
    }
  }

  /** After the loop, every role some generated scene introduced holds the
      sheet drawn for its first introduction; every other role keeps what the
      story had. */
  lemma PeopleRefsAfterRun(m: JsMap.Entries<string>, generated: seq<SocialStoryScene>, sheet: Drawer, role: string)
    ensures JsMap.Get(SetAll(m, RefsAfter(generated, sheet)), role) ==
      if FirstSheet(generated, role, sheet).Some? then FirstSheet(generated, role, sheet) else JsMap.Get(m, role)
  {
    RefsAfterByRole(generated, sheet);
    SetAllGet(m, RefsAfter(generated, sheet), role);
  }

  /** The story while the loop runs: the steps appended so far, and the
      people's references set for the scenes generated so far. `isGenerating`
      tells whether the last step appended was not the final one. */
  function Progress(base: SocialStoryState, generated: seq<SocialStoryScene>, steps: seq<SocialStorySceneStep>,
                    total: int, sheet: Drawer): SocialStoryState
  {
    base.(scenes := base.scenes + steps,
          peopleRefs := SetAll(base.peopleRefs, RefsAfter(generated, sheet)),
          isGenerating := if steps == [] then base.isGenerating else |steps| < total)
  }

  /** The story once the loop has stopped where it stood, and complete when
      no round failed. */
  function StoryAfter(base: SocialStoryState, run: Run, total: int, sheet: Drawer): SocialStoryState {
    var current := Progress(base, run.generated, run.steps, total, sheet);
    if run.failure.None? then current.(isComplete := true, isGenerating := false) else current
  }
}
