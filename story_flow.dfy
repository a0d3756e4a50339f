/**
 * The linear social story of App.tsx (`generateStory`), as values: how many
 * scenes are asked for, the one reference sheet kept per role, the
 * references merged for each scene's picture, and the prompt that describes
 * the people in it.
 *
 * The image service and the composite merge are function parameters.
 */
module SocialStoryFlow {
  import opened Js
  import opened Types
  import JsMap
  import SocialStoryApi

  type Outcome<T> = SocialStoryApi.Outcome<T>
  type ImageSend = SocialStoryApi.ImageCall -> SocialStoryApi.Reply

  /** `template?.estimatedScenes || custom?.estimatedScenes || 6`. */
  function TotalScenes(template: Option<SocialStoryTemplate>, custom: Option<CustomScenarioInput>): (n: int)
    ensures n != 0
    ensures template.Some? && template.value.estimatedScenes != 0 ==> n == template.value.estimatedScenes
    ensures (template.None? || template.value.estimatedScenes == 0) && custom.Some? && custom.value.estimatedScenes != 0 ==>
      n == custom.value.estimatedScenes
    ensures (template.None? || template.value.estimatedScenes == 0) && (custom.None? || custom.value.estimatedScenes == 0) ==>
      n == 6
  {
    if template.Some? && template.value.estimatedScenes != 0 then template.value.estimatedScenes
    else if custom.Some? && custom.value.estimatedScenes != 0 then custom.value.estimatedScenes
    else 6
  }

  // ---------------------------------------------------------------------------
  // One reference sheet per role
  // ---------------------------------------------------------------------------

  predicate Introduces(s: SocialStoryScene, role: string) {
    s.personIntroduced.Some? && s.personIntroduced.value.role == role
  }

  /** The person of the first scene that introduces the role. */
  function Introduction(scenes: seq<SocialStoryScene>, role: string): (r: Option<PersonIntroduced>)
    ensures r.None? <==> forall i | 0 <= i < |scenes| :: !Introduces(scenes[i], role)
    ensures r.Some? ==> exists i | 0 <= i < |scenes| ::
      && scenes[i].personIntroduced == r
      && forall j | 0 <= j < i :: !Introduces(scenes[j], role)
  {
    if scenes == [] then None
    else
      var init := scenes[..|scenes| - 1];
      var r := Introduction(init, role);
      assert forall i | 0 <= i < |init| :: scenes[i] == init[i];
      if r.Some? then r
      else if Introduces(scenes[|scenes| - 1], role) then scenes[|scenes| - 1].personIntroduced
      else None
  }

  /** The image of the reference sheet drawn for a description. */
  function Sheet(description: string, artStyle: string, send: ImageSend, typeErrorMessage: string): string {
    SocialStoryApi.GenerateCharacterReference(description, artStyle, send, typeErrorMessage).imageUrl
  }

  /** The sheet drawer the story uses: a description to the sheet's image. */
  type Drawer = string -> string

  function SheetDrawer(artStyle: string, send: ImageSend, typeErrorMessage: string): Drawer {
    (description: string) => Sheet(description, artStyle, send, typeErrorMessage)
  }

  /** `peopleRefsMap` once the given scenes have been generated: a sheet is
      drawn for a role the first time a scene introduces it, and recorded
      whatever the sheet's image is. */
  function RefsAfter(scenes: seq<SocialStoryScene>, sheet: Drawer): JsMap.Entries<string>
  {
    if scenes == [] then []
    else
      var refs := RefsAfter(scenes[..|scenes| - 1], sheet);
      var s := scenes[|scenes| - 1];
      if s.personIntroduced.Some? && !JsMap.Has(refs, s.personIntroduced.value.role) then
        JsMap.Set(refs, s.personIntroduced.value.role, sheet(s.personIntroduced.value.description))
      else refs
  }

  /** The sheet of the person who introduced the role first, if anyone did. */
  function FirstSheet(scenes: seq<SocialStoryScene>, role: string, sheet: Drawer): Option<string>
  {
    match Introduction(scenes, role)
    case None => None
    case Some(p) => Some(sheet(p.description))
  }

  /** No role is listed twice. */
  lemma {:induction false} RefsAfterUnique(scenes: seq<SocialStoryScene>, sheet: Drawer)
    ensures JsMap.UniqueKeys(RefsAfter(scenes, sheet))
  {
    if scenes != [] {
      var refs := RefsAfter(scenes[..|scenes| - 1], sheet);
      var s := scenes[|scenes| - 1];
      RefsAfterUnique(scenes[..|scenes| - 1], sheet);
      if s.personIntroduced.Some? && !JsMap.Has(refs, s.personIntroduced.value.role) {
        JsMap.SetKeepsKeysUnique(refs, s.personIntroduced.value.role, sheet(s.personIntroduced.value.description));
      }
    }
  }

  /** One more scene keeps a role's entry equal to the sheet of its first
      introduction. */
  lemma RefsAfterStep(scenes: seq<SocialStoryScene>, sheet: Drawer, role: string)
    requires scenes != []
    requires JsMap.Get(RefsAfter(scenes[..|scenes| - 1], sheet), role) == FirstSheet(scenes[..|scenes| - 1], role, sheet)
    ensures JsMap.Get(RefsAfter(scenes, sheet), role) == FirstSheet(scenes, role, sheet)
  {
    var init := scenes[..|scenes| - 1];
    var s := scenes[|scenes| - 1];
    assert Introduction(scenes, role) ==
      if Introduction(init, role).Some? then Introduction(init, role)
      else if Introduces(s, role) then s.personIntroduced else None;
  }

  /** Each role holds the sheet drawn for the person who introduced it
      first, even an empty one; a role nobody introduced has no entry; no role
      is listed twice. */
  lemma {:induction false} RefsAfterByRole(scenes: seq<SocialStoryScene>, sheet: Drawer)
    ensures JsMap.UniqueKeys(RefsAfter(scenes, sheet))
    ensures forall role ::
      JsMap.Get(RefsAfter(scenes, sheet), role) == FirstSheet(scenes, role, sheet)
  {
    RefsAfterUnique(scenes, sheet);
    if scenes != [] {
      RefsAfterByRole(scenes[..|scenes| - 1], sheet);
      forall role
        ensures JsMap.Get(RefsAfter(scenes, sheet), role) == FirstSheet(scenes, role, sheet)
      {
        RefsAfterStep(scenes, sheet, role);
      }
    }
  }

  /** Introducing a role again draws no second sheet. */
  lemma ReintroductionKeepsSheet(scenes: seq<SocialStoryScene>, s: SocialStoryScene, sheet: Drawer)
    requires s.personIntroduced.Some?
    requires JsMap.Has(RefsAfter(scenes, sheet), s.personIntroduced.value.role)
    ensures RefsAfter(scenes + [s], sheet) == RefsAfter(scenes, sheet)
  {
    assert (scenes + [s])[..|scenes|] == scenes;
  }

  // ---------------------------------------------------------------------------
  // The picture of one scene
  // ---------------------------------------------------------------------------

  /** The references merged for a scene: the child's sheet when it has an
      image, then the sheet of the person this scene introduces when it has
      one. A person who only recurs is not among them. */
  function SceneRefs(childRef: string, scene: SocialStoryScene, refs: JsMap.Entries<string>): (r: seq<string>)
    ensures |r| <= 2
    ensures forall i | 0 <= i < |r| :: r[i] != ""
    ensures forall i | 0 <= i < |r| ::
      (r[i] == childRef || (scene.personIntroduced.Some? && JsMap.Get(refs, scene.personIntroduced.value.role) == Some(r[i])))
    ensures childRef != "" ==> r != [] && r[0] == childRef
    ensures scene.personIntroduced.None? ==> r == (if childRef != "" then [childRef] else [])
  {
    (if childRef != "" then [childRef] else [])
    + (if scene.personIntroduced.Some? then
         match JsMap.Get(refs, scene.personIntroduced.value.role)
         case Some(u) => if u != "" then [u] else []
         case None => []
       else [])
  }

  /** The composite reference: none without references, else the merge. */
  function Composite(refs: seq<string>, merge: seq<string> -> Outcome<string>): (r: Outcome<Option<string>>)
    ensures refs == [] ==> r == SocialStoryApi.Success(None)
    ensures refs != [] && merge(refs).Success? ==> r == SocialStoryApi.Success(Some(merge(refs).value))
    ensures refs != [] && merge(refs).Failure? ==> r == SocialStoryApi.Failure(merge(refs).message)
  {
    if refs == [] then SocialStoryApi.Success(None)
    else match merge(refs)
      case Success(u) => SocialStoryApi.Success(Some(u))
      case Failure(m) => SocialStoryApi.Failure(m)
  }

  /** The description of a recurring role that the scene mentions, taken from
      the person who introduced it. */
  function RecurringLine(generated: seq<SocialStoryScene>, sceneText: string, role: string): string {
    if Includes(ToLower(sceneText), ToLower(role)) then
      match Introduction(generated, role)
      case Some(p) => p.name + " is " + p.description + ". "
      case None => ""
    else ""
  }

  /** The recurring lines for the recorded roles, in insertion order. */
  function RecurringLines(refs: JsMap.Entries<string>, generated: seq<SocialStoryScene>, sceneText: string): string {
    if refs == [] then ""
    else RecurringLines(refs[..|refs| - 1], generated, sceneText) + RecurringLine(generated, sceneText, refs[|refs| - 1].0)
  }

  /** A role the scene does not mention adds no description. */
  lemma {:induction false} UnmentionedRolesAddNothing(refs: JsMap.Entries<string>, generated: seq<SocialStoryScene>,
                                                      sceneText: string)
    requires forall i | 0 <= i < |refs| :: !Includes(ToLower(sceneText), ToLower(refs[i].0))
    ensures RecurringLines(refs, generated, sceneText) == ""
  {
    if refs != [] {
      var init := refs[..|refs| - 1];
      assert forall i | 0 <= i < |init| :: init[i] == refs[i];
      UnmentionedRolesAddNothing(init, generated, sceneText);
    }
  }

  function ChildLine(config: SocialStoryConfig): string {
    config.childName + " is " + config.childAppearance + ". "
  }

  /** The people part of the prompt: the person this scene introduces, with
      role; otherwise every recorded role the scene's text or image
      description mentions. */
  function PeopleLines(scene: SocialStoryScene, refs: JsMap.Entries<string>, generated: seq<SocialStoryScene>): string {
    match scene.personIntroduced
    case Some(p) => p.name + " (" + p.role + ") is " + p.description + ". "
    case None => RecurringLines(refs, generated, scene.sceneText + " " + scene.imageDescription)
  }

  /** The enhanced image prompt: the child, then the people, then the scene's
      own image description. */
  function EnhancedPrompt(config: SocialStoryConfig, scene: SocialStoryScene, refs: JsMap.Entries<string>,
                          generated: seq<SocialStoryScene>): string
  {
    ChildLine(config) + PeopleLines(scene, refs, generated) + scene.imageDescription
  }

  /** The prompt always starts by describing the child and ends with the
      scene's image description. */
  lemma EnhancedPromptFrame(config: SocialStoryConfig, scene: SocialStoryScene, refs: JsMap.Entries<string>,
                            generated: seq<SocialStoryScene>)
    ensures StartsWith(EnhancedPrompt(config, scene, refs, generated), ChildLine(config))
    ensures SuffixOf(scene.imageDescription, EnhancedPrompt(config, scene, refs, generated))
  {
    var people := PeopleLines(scene, refs, generated);
    assert EnhancedPrompt(config, scene, refs, generated) == ChildLine(config) + (people + scene.imageDescription);
    StartsWithConcat(ChildLine(config), people + scene.imageDescription);
    SuffixOfConcat(ChildLine(config) + people, scene.imageDescription);
  }

  /** The scene step the loop appends for the last of `generated`, or the
      merge failure that ends the loop. */
  function SceneStep(config: SocialStoryConfig, childRef: string, generated: seq<SocialStoryScene>,
                     sheet: Drawer, merge: seq<string> -> Outcome<string>, send: ImageSend, typeErrorMessage: string)
    : (r: Outcome<SocialStorySceneStep>)
    requires generated != []
    ensures r.Success? ==> r.value.scene == generated[|generated| - 1]
  {
    var scene := generated[|generated| - 1];
    var refs := RefsAfter(generated, sheet);
    match Composite(SceneRefs(childRef, scene, refs), merge)
    case Failure(m) => SocialStoryApi.Failure(m)
    case Success(composite) =>
      var img := SocialStoryApi.GenerateImage(EnhancedPrompt(config, scene, refs, generated), config.artStyle,
                                              composite, send, typeErrorMessage);
      SocialStoryApi.Success(SocialStorySceneStep(scene, img.imageUrl, img.debugPrompt))
  }

  /** With no child image and no person in the scene, the picture is drawn
      without a reference, and nothing is merged. */
  lemma NoReferenceWithoutPeople(config: SocialStoryConfig, generated: seq<SocialStoryScene>, sheet: Drawer,
                                 merge: seq<string> -> Outcome<string>, send: ImageSend, typeErrorMessage: string)
    requires generated != [] && generated[|generated| - 1].personIntroduced.None?
    ensures var scene := generated[|generated| - 1];
      var refs := RefsAfter(generated, sheet);
      SceneStep(config, "", generated, sheet, merge, send, typeErrorMessage) ==
        SocialStoryApi.Success(SocialStorySceneStep(scene,
          SocialStoryApi.GenerateImage(EnhancedPrompt(config, scene, refs, generated), config.artStyle, None, send, typeErrorMessage).imageUrl,
          SocialStoryApi.GenerateImage(EnhancedPrompt(config, scene, refs, generated), config.artStyle, None, send, typeErrorMessage).debugPrompt))
  {
  }
}
