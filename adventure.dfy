/**
 * The branching adventure of App.tsx, as values: the initial game state,
 * matching a name against the saved collection, the prefetch cache keys,
 * moving forward and back through the history, assembling the starting
 * party, choosing the reference image and filling the prefetch cache.
 *
 * The story-step generator, the image service, the composite merge and the
 * word-boundary test of the starting sentence are function parameters.
 */
module Adventure {
  import opened Js
  import opened Types
  import JsMap
  import SocialStoryApi

  type Outcome<T> = SocialStoryApi.Outcome<T>

  /** INITIAL_STATE. */
  const Initial := StoryState(0, -1, [], [], None, None, None, None, [], None, false, map[])

  /** `generateStoryStep(startingSentence, artStyle, state, choice, known)`. */
  type StepService = (string, string, StoryState, Option<string>, seq<NewCharacterInfo>) -> Outcome<StoryResponse>

  // ---------------------------------------------------------------------------
  // Relaxed name matching
  // ---------------------------------------------------------------------------

  /** Trimmed and lower-cased, either name contains the other. */
  predicate Matches(c: Character, name: string) {
    NamesMatch(ToLower(Trim(c.name)), ToLower(Trim(name)))
  }

  predicate NamesMatch(stored: string, search: string) {
    stored == search || Includes(stored, search) || Includes(search, stored)
  }

  /** The first position from `from` on whose element satisfies `p`. */
  function FirstFrom<T>(xs: seq<T>, p: T -> bool, from: nat): (r: Option<nat>)
    requires from <= |xs|
    ensures r.Some? ==> from <= r.value < |xs| && p(xs[r.value])
    ensures r.Some? ==> forall j | from <= j < r.value :: !p(xs[j])
    ensures r.None? ==> forall j | from <= j < |xs| :: !p(xs[j])
    decreases |xs| - from
  {
    if from == |xs| then None
    else if p(xs[from]) then Some(from)
    else FirstFrom(xs, p, from + 1)
  }

  /** The first saved character from position `from` on that matches. */
  function FindFrom(saved: seq<Character>, name: string, from: nat): (r: Option<nat>)
    requires from <= |saved|
    ensures r.Some? ==> from <= r.value < |saved| && Matches(saved[r.value], name)
    ensures r.Some? ==> forall j | from <= j < r.value :: !Matches(saved[j], name)
    ensures r.None? ==> forall j | from <= j < |saved| :: !Matches(saved[j], name)
  {
    FirstFrom(saved, c => Matches(c, name), from)
  }

  /** findMatchingCharacter: the first saved character whose name matches. */
  function FindMatchingCharacter(saved: seq<Character>, name: string): (r: Option<Character>)
    ensures r.None? <==> forall k | 0 <= k < |saved| :: !Matches(saved[k], name)
    ensures r.Some? ==> exists k | 0 <= k < |saved| :: r.value == saved[k] && FindFrom(saved, name, 0) == Some(k)
  {
    match FindFrom(saved, name, 0)
    case None => None
    case Some(k) => Some(saved[k])
  }

  /** A blank name is contained in every name, so it picks the first saved
      character whatever it is called. */
  lemma BlankNameMatchesFirst(saved: seq<Character>, name: string)
    requires saved != [] && IsBlank(name)
    ensures FindMatchingCharacter(saved, name) == Some(saved[0])
  {
    assert Trim(name) == [];
    IncludesTrivial(ToLower(Trim(saved[0].name)));
  }

  /** A name equal to a saved one up to surrounding spaces and case is found. */
  lemma SameNameFound(saved: seq<Character>, name: string, k: nat)
    requires k < |saved| && ToLower(Trim(saved[k].name)) == ToLower(Trim(name))
    ensures FindFrom(saved, name, 0).Some? && FindFrom(saved, name, 0).value <= k
  {
    assert Matches(saved[k], name);
  }

  // ---------------------------------------------------------------------------
  // Prefetch cache keys
  // ---------------------------------------------------------------------------

  /** `${depth}-${option}`. */
  function CacheKey(depth: int, option: string): string {
    IntToString(depth) + "-" + option
  }

  /** Keys at non-negative depths never collide: the digits of the depth
      cannot contain the dash. */
  lemma CacheKeyInjective(d1: nat, d2: nat, o1: string, o2: string)
    requires CacheKey(d1, o1) == CacheKey(d2, o2)
    ensures d1 == d2 && o1 == o2
  {
    var s1, s2 := NatToString(d1), NatToString(d2);
    var key := CacheKey(d1, o1);
    assert key == s1 + ['-'] + o1 && key == s2 + ['-'] + o2;
    NatToStringDigits(d1);
    NatToStringDigits(d2);
    assert key[|s1|] == '-' && key[|s2|] == '-';
    if |s1| < |s2| {
      assert false;
    } else if |s2| < |s1| {
      assert false;
    }
    assert s1 == key[..|s1|] == s2;
    NatToStringInjective(d1, d2);
    assert o1 == key[|s1| + 1..] == o2;
  }

  // ---------------------------------------------------------------------------
  // Moving through the history
  // ---------------------------------------------------------------------------

  /** A state the adventure has started: the current index points into the
      history, one choice led to each step after the first, and the current
      fields show the current step. */
  predicate Started(gs: StoryState) {
    && 0 <= gs.currentIndex < |gs.history|
    && |gs.history| == |gs.path| + 1
    && gs.currentDepth == gs.currentIndex + 1
    && Shows(gs, gs.history[gs.currentIndex])
  }

  predicate Shows(gs: StoryState, step: StoryStep) {
    && gs.currentScene == Some(step.scene)
    && gs.currentImageUrl == Some(step.imageUrl)
    && gs.currentDebugPrompt == Some(step.debugPrompt)
    && gs.activeParty == step.activeParty
    && gs.referenceImageUrl == step.referenceImageUrl
  }

  /** The state after taking `choice` to `step`: every step after the current
      one is dropped, and so is every choice after the one that led here. */
  function Commit(gs: StoryState, choice: string, step: StoryStep): (r: StoryState)
    ensures Shows(r, step) && r.isEnding == step.scene.isEnding
    ensures r.prefetchCache == gs.prefetchCache && r.refDebugPrompt == gs.refDebugPrompt
    ensures Started(gs) ==>
      && Started(r)
      && r.currentIndex == gs.currentIndex + 1
      && r.history == gs.history[..gs.currentIndex + 1] + [step]
      && r.path == gs.path[..gs.currentIndex] + [choice]
  {
    gs.(currentDepth := gs.currentDepth + 1,
        currentIndex := gs.currentIndex + 1,
        path := SliceTo(gs.path, gs.currentIndex) + [choice],
        history := SliceTo(gs.history, gs.currentIndex + 1) + [step],
        currentScene := Some(step.scene),
        currentImageUrl := Some(step.imageUrl),
        currentDebugPrompt := Some(step.debugPrompt),
        activeParty := step.activeParty,
        referenceImageUrl := step.referenceImageUrl,
        isEnding := step.scene.isEnding)
  }

  /** One step back; from the first step (or before it), the initial state. */
  function Back(gs: StoryState): (r: StoryState)
    requires gs.currentIndex < |gs.history|
    ensures gs.currentIndex <= 0 ==> r == Initial
    ensures gs.currentIndex > 0 ==>
      && r.currentIndex == gs.currentIndex - 1
      && Shows(r, gs.history[gs.currentIndex - 1])
      && !r.isEnding
      && r.history == gs.history && r.path == gs.path && r.prefetchCache == gs.prefetchCache
    ensures Started(gs) && gs.currentIndex > 0 ==> Started(r)
  {
    if gs.currentIndex <= 0 then Initial
    else
      var previous := gs.history[gs.currentIndex - 1];
      gs.(currentDepth := gs.currentDepth - 1,
          currentIndex := gs.currentIndex - 1,
          currentScene := Some(previous.scene),
          currentImageUrl := Some(previous.imageUrl),
          currentDebugPrompt := Some(previous.debugPrompt),
          activeParty := previous.activeParty,
          referenceImageUrl := previous.referenceImageUrl,
          isEnding := false)
  }

  /** Going back and then choosing again replaces the step that was current,
      and everything after it, by the new step. */
  lemma ChoiceAfterBackReplacesBranch(gs: StoryState, choice: string, step: StoryStep)
    requires Started(gs) && gs.currentIndex > 0
    ensures Started(Commit(Back(gs), choice, step))
    ensures Commit(Back(gs), choice, step).history == gs.history[..gs.currentIndex] + [step]
    ensures Commit(Back(gs), choice, step).path == gs.path[..gs.currentIndex - 1] + [choice]
    ensures Commit(Back(gs), choice, step).currentIndex == gs.currentIndex
  {
  }

  /** Going back restores the party and the reference image of that step. */
  lemma BackRestoresParty(gs: StoryState, choice: string, step: StoryStep)
    requires Started(gs)
    ensures Back(Commit(gs, choice, step)).activeParty == gs.activeParty
    ensures Back(Commit(gs, choice, step)).referenceImageUrl == gs.referenceImageUrl
    ensures Back(Commit(gs, choice, step)).currentScene == gs.currentScene
  {
    var r := Commit(gs, choice, step);
    assert r.history[r.currentIndex - 1] == gs.history[gs.currentIndex];
  }

  // ---------------------------------------------------------------------------
  // The starting party
  // ---------------------------------------------------------------------------

  /** A party member: a saved character, or the fallback hero. */
  datatype Member = Member(name: string, imageUrl: string)

  /** The characters told to the story generator, and the party by id. */
  datatype Party = Party(known: seq<Character>, members: JsMap.Entries<Member>)

  function AsMember(c: Character): Member {
    Member(c.name, c.imageUrl)
  }

  /** `savedCharacters.find(char => char.id === id)`. */
  function FindById(saved: seq<Character>, id: string): (r: Option<Character>)
    ensures r.Some? ==> r.value.id == id && r.value in saved
    ensures r.None? <==> forall k | 0 <= k < |saved| :: saved[k].id != id
  {
    if saved == [] then None
    else if saved[0].id == id then Some(saved[0])
    else
      var r := FindById(saved[1..], id);
      assert forall k | 1 <= k < |saved| :: saved[k] == saved[1..][k - 1];
      r
  }

  function Add(p: Party, c: Character): Party {
    Party(p.known + [c], JsMap.Set(p.members, c.id, AsMember(c)))
  }

  /** The explicitly selected characters that the collection still holds, in
      the order selected. */
  function ExplicitParty(saved: seq<Character>, ids: seq<string>): Party {
    if ids == [] then Party([], [])
    else
      var p := ExplicitParty(saved, ids[..|ids| - 1]);
      match FindById(saved, ids[|ids| - 1])
      case None => p
      case Some(c) => Add(p, c)
  }

  /** Then every saved character, in collection order, whose lower-cased name
      is a whole word of the lower-cased starting sentence and whose id is not
      in the party yet. */
  function PromptMatches(saved: seq<Character>, sentence: string, wordIn: (string, string) -> bool,
                         start: Party): Party
  {
    if saved == [] then start
    else
      var p := PromptMatches(saved[..|saved| - 1], sentence, wordIn, start);
      var c := saved[|saved| - 1];
      if JsMap.Has(p.members, c.id) then p
      else if Named(c, sentence, wordIn) then Add(p, c)
      else p
  }

  /** The regular expression `\\b<name>\\b`, lower-cased, tested on the
      lower-cased sentence. */
  predicate Named(c: Character, sentence: string, wordIn: (string, string) -> bool) {
    wordIn(ToLower(c.name), ToLower(sentence))
  }

  /** Some saved character with id `k` is named in the sentence. */
  predicate NamedId(saved: seq<Character>, k: string, sentence: string, wordIn: (string, string) -> bool) {
    exists i | 0 <= i < |saved| :: saved[i].id == k && Named(saved[i], sentence, wordIn)
  }

  function InitialParty(saved: seq<Character>, config: StoryConfig, wordIn: (string, string) -> bool): Party {
    var ids := if config.selectedCharacterIds.Some? then config.selectedCharacterIds.value else [];
    PromptMatches(saved, config.startingSentence, wordIn, ExplicitParty(saved, ids))
  }

  /** knownCharContext. */
  function Known(known: seq<Character>): (r: seq<NewCharacterInfo>)
    ensures |r| == |known|
    ensures forall i | 0 <= i < |known| :: r[i] == NewCharacterInfo(known[i].name, known[i].description)
  {
    seq(|known|, i requires 0 <= i < |known| => NewCharacterInfo(known[i].name, known[i].description))
  }

  /** The party's images, in the party's order. */
  function Images(members: JsMap.Entries<Member>): (r: seq<string>)
    ensures |r| == |members|
    ensures forall i | 0 <= i < |members| :: r[i] == members[i].1.imageUrl
  {
    seq(|members|, i requires 0 <= i < |members| => members[i].1.imageUrl)
  }

  /** Adding a character under an id that is not in the party appends one
      member at the end and leaves the others as they were. */
  lemma AddAppends(p: Party, c: Character)
    requires !JsMap.Has(p.members, c.id)
    ensures Add(p, c).members == p.members + [(c.id, AsMember(c))]
  {
  }

  /** The selected ids that the collection holds are the party's ids, each
      once. */
  lemma {:induction false} ExplicitPartyMembers(saved: seq<Character>, ids: seq<string>)
    ensures JsMap.UniqueKeys(ExplicitParty(saved, ids).members)
    ensures forall k :: JsMap.Has(ExplicitParty(saved, ids).members, k) <==> k in ids && FindById(saved, k).Some?
  {
    if ids != [] {
      var init := ids[..|ids| - 1];
      ExplicitPartyMembers(saved, init);
      var p := ExplicitParty(saved, init);
      var id := ids[|ids| - 1];
      assert ids == init + [id];
      match FindById(saved, id)
      case None =>
      case Some(c) =>
        JsMap.SetKeepsKeysUnique(p.members, c.id, AsMember(c));
    }
  }

  /** The prompt scan keeps the members it started with, in front and as they
      were, and adds exactly the saved characters named in the sentence whose
      ids were missing, each id once. */
  lemma {:induction false} PromptMatchesMembers(saved: seq<Character>, sentence: string,
                                                wordIn: (string, string) -> bool, start: Party)
    requires JsMap.UniqueKeys(start.members)
    ensures var p := PromptMatches(saved, sentence, wordIn, start);
      && JsMap.UniqueKeys(p.members)
      && start.members <= p.members
      && start.known <= p.known
      && forall k :: JsMap.Has(p.members, k) <==> JsMap.Has(start.members, k) || NamedId(saved, k, sentence, wordIn)
  {
    if saved != [] {
      var init := saved[..|saved| - 1];
      var c := saved[|saved| - 1];
      PromptMatchesMembers(init, sentence, wordIn, start);
      var p := PromptMatches(init, sentence, wordIn, start);
      assert forall i | 0 <= i < |init| :: saved[i] == init[i];
      forall k ensures NamedId(saved, k, sentence, wordIn) <==> NamedId(init, k, sentence, wordIn) || (c.id == k && Named(c, sentence, wordIn)) {
        if NamedId(saved, k, sentence, wordIn) {
          var i :| 0 <= i < |saved| && saved[i].id == k && Named(saved[i], sentence, wordIn);
          if i < |init| { assert init[i] == saved[i]; }
        }
      }
      if !JsMap.Has(p.members, c.id) && Named(c, sentence, wordIn) {
        JsMap.SetKeepsKeysUnique(p.members, c.id, AsMember(c));
        AddAppends(p, c);
      }
    }
  }

  /** The starting party: the selected characters first, in the order
      selected, then the saved characters whose names the sentence contains
      as words; no character twice. */
  lemma StartingPartyMembers(saved: seq<Character>, config: StoryConfig, wordIn: (string, string) -> bool)
    ensures var ids := if config.selectedCharacterIds.Some? then config.selectedCharacterIds.value else [];
      var p := InitialParty(saved, config, wordIn);
      && JsMap.UniqueKeys(p.members)
      && ExplicitParty(saved, ids).members <= p.members
      && forall k :: JsMap.Has(p.members, k) <==>
           (k in ids && FindById(saved, k).Some?) || NamedId(saved, k, config.startingSentence, wordIn)
  {
    var ids := if config.selectedCharacterIds.Some? then config.selectedCharacterIds.value else [];
    ExplicitPartyMembers(saved, ids);
    PromptMatchesMembers(saved, config.startingSentence, wordIn, ExplicitParty(saved, ids));
  }

  // ---------------------------------------------------------------------------
  // The main character and the reference image
  // ---------------------------------------------------------------------------

  predicate EitherIncludes(a: string, b: string) {
    Includes(a, b) || Includes(b, a)
  }

  /** The first party member whose lower-cased name contains, or is contained
      in, the lower-cased main-character name (no trimming here). */
  function FindPartyMember(members: JsMap.Entries<Member>, name: string): (r: Option<Member>)
    ensures r.None? <==> forall i | 0 <= i < |members| :: !EitherIncludes(ToLower(members[i].1.name), ToLower(name))
    ensures r.Some? ==>
      exists i | 0 <= i < |members| ::
        && members[i].1 == r.value && EitherIncludes(ToLower(members[i].1.name), ToLower(name))
        && forall j | 0 <= j < i :: !EitherIncludes(ToLower(members[j].1.name), ToLower(name))
  {
    if members == [] then None
    else if EitherIncludes(ToLower(members[0].1.name), ToLower(name)) then Some(members[0].1)
    else
      var r := FindPartyMember(members[1..], name);
      assert forall i | 1 <= i < |members| :: members[i] == members[1..][i - 1];
      r
  }

  /** The reference for a party: nothing for no image, the image itself for
      one, and the composite of all of them for more. */
  function Reference(images: seq<string>, merge: seq<string> -> Outcome<string>): Outcome<string> {
    if |images| > 1 then merge(images)
    else if |images| == 1 then SocialStoryApi.Success(images[0])
    else SocialStoryApi.Success("")
  }

  // ---------------------------------------------------------------------------
  // Prefetching
  // ---------------------------------------------------------------------------

  /** The scene's options that are set, in order. */
  function Options(scene: StoryResponse): (r: seq<string>)
    ensures forall i | 0 <= i < |r| :: r[i] != ""
    ensures Present(scene.option1) && Present(scene.option2) ==> r == [scene.option1.value, scene.option2.value]
    ensures !Present(scene.option1) && !Present(scene.option2) ==> r == []
  {
    (if Present(scene.option1) then [scene.option1.value] else [])
    + (if Present(scene.option2) then [scene.option2.value] else [])
  }

  /** Prefetching runs only with a config and a scene that does not end the
      story, once a reference image exists. */
  predicate PrefetchRuns(config: Option<StoryConfig>, gs: StoryState) {
    config.Some? && gs.currentScene.Some? && !gs.isEnding && Present(gs.referenceImageUrl)
  }

  /** The step prefetched for one option: none when the story step fails or
      brings a new character; otherwise the scene with its image, under the
      current party and reference. */
  function PrefetchStep(gs: StoryState, config: StoryConfig, option: string, stepService: StepService,
                        imageSend: SocialStoryApi.ImageCall -> SocialStoryApi.Reply,
                        typeErrorMessage: string): (r: Option<StoryStep>)
    ensures r.Some? ==> r.value.activeParty == gs.activeParty && r.value.referenceImageUrl == gs.referenceImageUrl
    ensures r.Some? <==>
      stepService(config.startingSentence, config.artStyle, gs, Some(option), []).Success? &&
      stepService(config.startingSentence, config.artStyle, gs, Some(option), []).value.newCharacter.None?
  {
    match stepService(config.startingSentence, config.artStyle, gs, Some(option), [])
    case Failure(_) => None
    case Success(data) =>
      if data.newCharacter.Some? then None
      else
        var img := SocialStoryApi.GenerateImage(data.imageDescription, config.artStyle, gs.referenceImageUrl,
                                                imageSend, typeErrorMessage);
        Some(StoryStep(data, img.imageUrl, img.debugPrompt, gs.activeParty, gs.referenceImageUrl))
  }

  /** The cache after filling `cache` with `step` for each of `options` in
      order, skipping every option whose key `cache` already had and every
      option whose step is none. */
  function FillCache(cache: map<string, StoryStep>, depth: int, options: seq<string>,
                     step: string -> Option<StoryStep>): map<string, StoryStep>
  {
    if options == [] then cache
    else
      var m := FillCache(cache, depth, options[..|options| - 1], step);
      var key := CacheKey(depth, options[|options| - 1]);
      if key in cache then m
      else match step(options[|options| - 1])
        case None => m
        case Some(s) => m[key := s]
  }

  /** The cache after prefetching `options` in order. The skip test reads
      the cache as it was when prefetching began. */
  function Prefetched(gs: StoryState, config: StoryConfig, options: seq<string>, stepService: StepService,
                      imageSend: SocialStoryApi.ImageCall -> SocialStoryApi.Reply,
                      typeErrorMessage: string): map<string, StoryStep>
  {
    FillCache(gs.prefetchCache, gs.currentDepth, options,
              o => PrefetchStep(gs, config, o, stepService, imageSend, typeErrorMessage))
  }

  lemma CacheKeySameDepth(depth: int, o1: string, o2: string)
    requires CacheKey(depth, o1) == CacheKey(depth, o2)
    ensures o1 == o2
  {
    var n := |IntToString(depth) + "-"|;
    assert o1 == CacheKey(depth, o1)[n..];
  }

  /** Filling keeps every entry the cache had. */
  lemma {:induction false} FillCacheKeeps(cache: map<string, StoryStep>, depth: int, options: seq<string>,
                                          step: string -> Option<StoryStep>)
    ensures var m := FillCache(cache, depth, options, step);
      forall k | k in cache :: k in m && m[k] == cache[k]
  {
    if options != [] {
      FillCacheKeeps(cache, depth, options[..|options| - 1], step);
    }
  }

  /** Every key filling adds is the key of one of the options, and its entry
      is that option's step. */
  lemma {:induction false} FillCacheOnlyOptions(cache: map<string, StoryStep>, depth: int, options: seq<string>,
                                                step: string -> Option<StoryStep>)
    ensures var m := FillCache(cache, depth, options, step);
      forall k | k in m && k !in cache ::
        exists i | 0 <= i < |options| :: k == CacheKey(depth, options[i]) && step(options[i]) == Some(m[k])
  {
    if options != [] {
      var init := options[..|options| - 1];
      FillCacheOnlyOptions(cache, depth, init, step);
      assert forall i | 0 <= i < |init| :: options[i] == init[i];
    }
  }

  /** An option whose key was missing gets an entry exactly when its step is
      present, and the entry holds that step. */
  lemma {:induction false} FillCacheAdds(cache: map<string, StoryStep>, depth: int, options: seq<string>,
                                         step: string -> Option<StoryStep>)
    ensures var m := FillCache(cache, depth, options, step);
      forall i | 0 <= i < |options| && CacheKey(depth, options[i]) !in cache ::
        (step(options[i]).Some? ==> CacheKey(depth, options[i]) in m &&
                                    m[CacheKey(depth, options[i])] == step(options[i]).value) &&
        (step(options[i]).None? ==> CacheKey(depth, options[i]) !in m)
  {
    if options != [] {
      var init := options[..|options| - 1];
      var o := options[|options| - 1];
      FillCacheAdds(cache, depth, init, step);
      FillCacheOnlyOptions(cache, depth, init, step);
      assert forall i | 0 <= i < |init| :: options[i] == init[i];
      forall i | 0 <= i < |options| && CacheKey(depth, options[i]) == CacheKey(depth, o)
        ensures options[i] == o
      {
        CacheKeySameDepth(depth, options[i], o);
      }
    }
  }

  /** Prefetching keeps every entry it found, and adds exactly one entry per
      option whose key was missing and whose step could be prefetched; the
      entry holds that step, under the party and reference current when it
      was prefetched. Options that bring a new character are never cached. */
  lemma PrefetchedEntries(gs: StoryState, config: StoryConfig, options: seq<string>, stepService: StepService,
                          imageSend: SocialStoryApi.ImageCall -> SocialStoryApi.Reply, typeErrorMessage: string)
    ensures var m := Prefetched(gs, config, options, stepService, imageSend, typeErrorMessage);
      && (forall k | k in gs.prefetchCache :: k in m && m[k] == gs.prefetchCache[k])
      && (forall i | 0 <= i < |options| && CacheKey(gs.currentDepth, options[i]) !in gs.prefetchCache ::
            var step := PrefetchStep(gs, config, options[i], stepService, imageSend, typeErrorMessage);
            (step.Some? ==> CacheKey(gs.currentDepth, options[i]) in m &&
                            m[CacheKey(gs.currentDepth, options[i])] == step.value) &&
            (step.None? ==> CacheKey(gs.currentDepth, options[i]) !in m))
      && (forall k | k in m && k !in gs.prefetchCache ::
            (exists i | 0 <= i < |options| :: k == CacheKey(gs.currentDepth, options[i])) &&
            m[k].activeParty == gs.activeParty && m[k].referenceImageUrl == gs.referenceImageUrl)
  {
    var step := o => PrefetchStep(gs, config, o, stepService, imageSend, typeErrorMessage);
    FillCacheKeeps(gs.prefetchCache, gs.currentDepth, options, step);
    FillCacheAdds(gs.prefetchCache, gs.currentDepth, options, step);
    FillCacheOnlyOptions(gs.prefetchCache, gs.currentDepth, options, step);
  }

  // ---------------------------------------------------------------------------
  // The collection
  // ---------------------------------------------------------------------------

  /** `saved.filter(c => c.id !== id)`. */
  function WithoutCharacter(saved: seq<Character>, id: string): seq<Character> {
    if saved == [] then []
    else
      var rest := WithoutCharacter(saved[..|saved| - 1], id);
      if saved[|saved| - 1].id == id then rest else rest + [saved[|saved| - 1]]
  }

  /** Removing a character keeps exactly the characters with another id, in
      their order: taking the rest of the collection after a kept character
      gives the rest of the result. */
  lemma {:induction false} WithoutCharacterKeepsOthers(saved: seq<Character>, id: string)
    ensures forall c :: c in WithoutCharacter(saved, id) <==> c in saved && c.id != id
    ensures |WithoutCharacter(saved, id)| <= |saved|
    ensures (forall i | 0 <= i < |saved| :: saved[i].id != id) ==> WithoutCharacter(saved, id) == saved
  {
    if saved != [] {
      var init := saved[..|saved| - 1];
      WithoutCharacterKeepsOthers(init, id);
      assert saved == init + [saved[|saved| - 1]];
    }
  }

  /** Removal distributes over a split of the collection. */
  lemma {:induction false} WithoutCharacterAppend(a: seq<Character>, b: seq<Character>, id: string)
    ensures WithoutCharacter(a + b, id) == WithoutCharacter(a, id) + WithoutCharacter(b, id)
    decreases |b|
  {
    if b == [] {
      assert a + b == a;
    } else {
      var init := b[..|b| - 1];
      assert (a + b)[..|a + b| - 1] == a + init && (a + b)[|a + b| - 1] == b[|b| - 1];
      WithoutCharacterAppend(a, init, id);
    }
  }
}
