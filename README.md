# Social Story Builder, modelled in Dafny

Social Story Builder is a browser application that writes illustrated
*social stories* for children: short, scene-by-scene stories that prepare a
child for an everyday situation (a visit to the dentist, a fire drill, a
birthday party). A parent picks one of fifteen scenario templates or
describes a custom scenario, fills in a profile of the child, and the
application asks a text model for each scene in turn and an image model for
its picture. Each picture is drawn against reference sheets of the child and
of the people the story introduces, so that everyone looks the same from
scene to scene. Finished stories can be saved to the browser's local storage,
listed most recently viewed first, reopened and deleted.

The same component holds an older *branching adventure*. The child types a
starting sentence, the story generator writes a scene with two options, and
each choice leads to a new scene. Characters met on the way are drawn,
collected and can join later adventures. The options of the current scene
are prefetched in the background, and the child can step back through the
history and choose differently. Scenes are read aloud with the browser's
speech synthesiser.

The model covers the logic of these features. Every network call, the
models, the clock, fresh ids and the browser's APIs are parameters of the
operations that use them, so every branch the code takes on their answers
is modelled.

| module | file | models |
|---|---|---|
| `Js`, `JsMap`, `Json` | js.dfy, jsmap.dfy, json.dfy | the JavaScript semantics the code relies on: `trim`, `toLowerCase`, `includes`, `split`, `slice`, number printing, the insertion-ordered `Map` and its round trip through a plain object, property access on parsed JSON with `undefined` and the `TypeError` on `null` |
| `Types` | types.dfy | the records of src/types.ts |
| `Templates` | templates.dfy | the scenario table and its three lookups (src/data/templates.ts) |
| `Forms` | forms.dfy | what the child profile and custom scenario forms hand on (components/ChildProfileForm.tsx, components/CustomScenarioForm.tsx) |
| `StartScreen` | start_screen.dfy | the adventure's start screen: selection of up to three characters, the starting sentence it writes, the search filter and the voice transcript (components/StartScreen.tsx) |
| `TextReader` | text_reader.dfy | the read-aloud hook as a class: its flags, the word index on each boundary event and the voice choice (hooks/useTextReader.ts) |
| `ImageProxy` | image_proxy.dfy | the server's image endpoint: configuration guard, endpoint and payload, and the retry loop (api/image/index.js) |
| `SocialStoryApi` | social_story_api.dfy | the generation clients: the system and user prompts of a scene, the extraction of the scene text, the image requests and the image URL, and the no-throw policy for images (services/socialStoryApi.ts) |
| `ImageUtils` | image_utils.dfy | the composite reference: the shortcuts, waiting for every image to load, and the layout (utils/imageUtils.ts) |
| `Storage` | storage.dfy | the saved-story library as a class over the storage slot (services/storageService.ts) |
| `Adventure`, `StoryApp` | adventure.dfy, app.dfy | the branching adventure of App.tsx: name matching, the starting party, the reference image, the choice with its unlock and merge, the commit, going back, and the prefetch |
| `SocialStoryFlow`, `StoryApp` | story_flow.dfy, app.dfy | the linear social story of App.tsx: the scene count, one reference sheet per role, each scene's composite and prompt, and the generation loop |
| `AppComponent` | app_component.dfy | the App component as a class whose fields are its state hooks, with one method per handler |

The adventure's state invariant is `Adventure.Started`: the history holds
one more step than the path, the depth is one more than the index, and the
shown scene, image, party and reference are those of the current step. The
commit and going back both keep it.

The model follows the code in three places where one might expect something
else:

- A prefetched option whose scene introduces a new character is not cached at all.
- A returning friend who is already in the party is not shown as unlocked.
- A person met in an earlier scene is added to a scene's composite only when that scene's `person_introduced` names their role again.

## Model

| member | source | states |
|---|---|---|
| TextReader.SplitOnSpaceRuns | hooks/useTextReader.ts:113 | `split(/\s+/)` yields at least one piece; no piece holds whitespace and only the first and last can be empty |
| TextReader.SplitLength | hooks/useTextReader.ts:113 | the number of pieces is one more than the number of maximal whitespace runs |
| TextReader.BlankHasNoWords | hooks/useTextReader.ts:101 | a blank text holds no word |
| TextReader.LeadingBlankWords | hooks/useTextReader.ts:113 | whitespace in front of a text adds no word to it |
| TextReader.WordsAlternate | hooks/useTextReader.ts:113 | in a text starting with a word, words and whitespace runs alternate |
| TextReader.PiecesOfTrimmed | hooks/useTextReader.ts:112-113 | a text ending in a word, once trimmed, splits into exactly as many pieces as it has words |
| TextReader.WordAt | hooks/useTextReader.ts:112 | the character that starts a word adds exactly one word to the prefix |
| TextReader.WordIndexAtWordStart | hooks/useTextReader.ts:91-117 | at a word boundary the highlighted index is the number of words before it, the word's 0-based position |
| TextReader.WordIndexAtStart | hooks/useTextReader.ts:100-101 | while only whitespace precedes the boundary the highlighted index is 0 |
| TextReader.Prefix | hooks/useTextReader.ts:93 | `substring(0, n)` is a prefix of the text, clamped to its length |
| TextReader.PreferredVoice | hooks/useTextReader.ts:46-57 | `voices.find`: no voice exactly when none is preferred, otherwise the first preferred voice |
| TextReader.Reader.constructor | hooks/useTextReader.ts:15-20 | not playing, not paused, no word highlighted (-1), support not yet detected |
| TextReader.Reader.DetectSupport | hooks/useTextReader.ts:22-26 | support becomes true when the environment has speech synthesis and nothing else changes |
| TextReader.Reader.Cancel | hooks/useTextReader.ts:28-34 | unsupported: nothing happens; otherwise the synthesiser is cancelled, both flags cleared and the index reset to -1 |
| TextReader.Reader.Speak | hooks/useTextReader.ts:36-62 | unsupported: nothing happens; otherwise cancel, then one utterance of the text at rate, pitch and volume 1 in the preferred voice is stored and spoken |
| TextReader.Reader.Pause | hooks/useTextReader.ts:123-126 | the synthesiser is paused when supported; the hook's own flags are left to the events |
| TextReader.Reader.Resume | hooks/useTextReader.ts:128-131 | the synthesiser is resumed when supported; the hook's own flags are left to the events |
| TextReader.Reader.OnStart | hooks/useTextReader.ts:65-68 | playing and not paused |
| TextReader.Reader.OnEnd | hooks/useTextReader.ts:70-74 | neither playing nor paused, no word highlighted |
| TextReader.Reader.OnError | hooks/useTextReader.ts:76-80 | neither playing nor paused; the highlighted word stays |
| TextReader.Reader.OnPause | hooks/useTextReader.ts:82-84 | paused |
| TextReader.Reader.OnResume | hooks/useTextReader.ts:86-88 | not paused |
| TextReader.Reader.OnBoundary | hooks/useTextReader.ts:91-117 | a word boundary sets the index to the boundary's word position; other boundaries leave it |
| ImageProxy.CleanImage | api/image/index.js:33-37 | an image that is not a data URL is sent unchanged |
| ImageProxy.CleanDataUrl | api/image/index.js:35-36 | for a data URL `header,data` exactly the base64 part after the comma is sent |
| ImageProxy.CleanDataUrlWithoutComma | api/image/index.js:35-36 | a data URL with no comma leaves the payload without an image (`split(',')[1]` is `undefined`) |
| ImageProxy.BuildPayload | api/image/index.js:22-44 | 1024 by 1024, 25 steps, base64 output; an edit with an image carries the cleaned image at strength 0.75, anything else generates at strength 1.0 with no image |
| ImageProxy.Endpoint | api/image/index.js:20-31 | the edit endpoint exactly for `mode === 'edit'` with an image, otherwise the generation endpoint |
| ImageProxy.FirstEnding | api/image/index.js:49-77 | the first of the three attempts that succeeds or meets a client error other than 429, if any, and every earlier attempt ends in neither |
| ImageProxy.Handle | api/image/index.js:4-95 | missing key or endpoint: 500 with the misconfiguration message and no request; otherwise the same request once per attempt up to the first success (200 with the upstream body) or final client error (its status and body), else three requests and a 500 naming the last error; one pause between attempts, none after the last |
| ImageProxy.Prepare | api/image/index.js:18-44 | the request every attempt sends: that endpoint, the configured key and that payload |
| ImageProxy.FirstEndingIs | api/image/index.js:49-77 | an attempt that ends the handler after attempts that did not is the first ending one |
| ImageProxy.NoEnding | api/image/index.js:88-94 | when no attempt ends the handler there is no first ending attempt, and the handler gives up |
| ImageProxy.FirstAttemptSucceeds | api/image/index.js:74-77 | a first attempt that succeeds ends the handler at once |
| ImageProxy.RateLimitIsRetried | api/image/index.js:62-71 | a 429 response never ends the handler: it is retried |
| ImageUtils.ScaledWidth | utils/imageUtils.ts:43-44 | the scaled width of an image is never negative |
| ImageUtils.ScaledWidthKeepsAspect | utils/imageUtils.ts:37-47 | scaling to a height of 1024 keeps each image's aspect ratio |
| ImageUtils.Widths | utils/imageUtils.ts:42-47 | one scaled width per image, in list order |
| ImageUtils.OffsetStep | utils/imageUtils.ts:61-65 | each image is drawn 20 pixels after the previous one ends |
| ImageUtils.UnsignedLong | utils/imageUtils.ts:56-57 | a size of at least 0 and below 2^32 pixels becomes the whole number of pixels at or just below it |
| ImageUtils.LineUp | utils/imageUtils.ts:37-65 | one draw per image; the first at x = 0, none overlapping the next, the last ending within the canvas's last pixel column, the width being the line-up's length rounded down to whole pixels |
| ImageUtils.Layout | utils/imageUtils.ts:41-65 | the two running totals compute the composite canvas: its width is the scaled widths plus one gap between neighbours, in whole pixels, its height 1024, each image at its offset |
| ImageUtils.LoadedCount | utils/imageUtils.ts:79-84 | `loadedCount` never exceeds the events seen and equals them exactly when every image seen loaded |
| ImageUtils.FirstFailure | utils/imageUtils.ts:86-90 | no failure exactly when every image seen loaded; otherwise the first image, in event order, that failed |
| ImageUtils.EventsCoverAll | utils/imageUtils.ts:75-94 | once every image has reported, all loaded exactly when no load failed |
| ImageUtils.LoadAll | utils/imageUtils.ts:21-94 | running the load and error handlers in event order settles the promise as the first settlement dictates |
| ImageUtils.EventStep | utils/imageUtils.ts:79-90 | one more event adds one to the count when it is a load, records a failure when it is an error, and leaves an earlier settlement standing |
| ImageUtils.FirstFailureStep | utils/imageUtils.ts:86-89 | a later failure never displaces the first one |
| ImageUtils.FirstFailureAppend | utils/imageUtils.ts:86-89 | the first failure of a longer event list is that of its prefix, or the new event when it failed |
| ImageUtils.OnAllLoaded | utils/imageUtils.ts:25-72 | no 2D context rejects; otherwise the promise settles with the encoding of the composite canvas, or its error |
| ImageUtils.MergeMultipleImages | utils/imageUtils.ts:6-96 | no list or an empty one gives "", one image is returned as is; two or more: the first failed load rejects with its index, and when all have loaded the result is that of `onAllLoaded` |
| SocialStoryApi.AdditionalContext | services/socialStoryApi.ts:83-85 | the additional-context block is empty exactly when the custom scenario has no specific details |
| SocialStoryApi.BuildUserPrompt | services/socialStoryApi.ts:70-85 | the accumulating loop builds exactly the "story so far" block (one line per earlier scene, in order), the scene request and the additional context |
| SocialStoryApi.StorySoFarOnlyWithHistory | services/socialStoryApi.ts:73-79 | the prompt opens with "Story so far:" exactly when there are earlier scenes |
| SocialStoryApi.PromptEndsWithRequest | services/socialStoryApi.ts:81-85 | every prompt ends with the request for this scene and, when present, the additional context |
| SocialStoryApi.SceneLinesInOrder | services/socialStoryApi.ts:75-77 | each earlier scene's line stands between those of the scenes before it and those after it |
| SocialStoryApi.FinalSceneFlag | services/socialStoryApi.ts:57 | the `is_final_scene` value the structure asks for is "true" exactly when the scene number equals the total, "false" otherwise |
| SocialStoryApi.KeyPeopleLine | services/socialStoryApi.ts:29 | the template's key people when there is a template, else the custom scenario's when it lists some, else nothing |
| SocialStoryApi.ConcernsLine | services/socialStoryApi.ts:30 | the template's common fears when there is a template, else the custom scenario's concerns when it lists some, else nothing |
| SocialStoryApi.KeyPeopleNamed | services/socialStoryApi.ts:20-29 | every key person of the template is named in the system prompt sent, with or without a custom scenario |
| SocialStoryApi.CustomKeyPeopleNamed | services/socialStoryApi.ts:20-29 | with no template, every key person the custom scenario lists is named in the system prompt sent |
| SocialStoryApi.FinalSceneAsked | services/socialStoryApi.ts:20-68 | the system prompt sent asks for `is_final_scene` as "true" on the last scene and as "false" on every other |
| SocialStoryApi.ChildNamed | services/socialStoryApi.ts:20-26 | the system prompt sent gives the child's name on a line of its own |
| SocialStoryApi.TemplateScenarioNamed | services/socialStoryApi.ts:20-24 | with a template, the system prompt sent names its title as the scenario |
| SocialStoryApi.CurrentSceneStated | services/socialStoryApi.ts:20-27 | the system prompt sent states the current scene number and the total |
| SocialStoryApi.OutputText | services/socialStoryApi.ts:113-121 | the Responses-style path yields a truthy text or `undefined`; a `null` item in the search throws |
| SocialStoryApi.FirstTruthy | services/socialStoryApi.ts:117-127 | the first truthy candidate; truthy exactly when some candidate is |
| SocialStoryApi.FirstTruthyOfThree | services/socialStoryApi.ts:123-127 | the three sources are consulted in order: output text, first choice, flat content |
| SocialStoryApi.ExtractContent | services/socialStoryApi.ts:110-127 | a `null` body throws; otherwise the first truthy of the output text, the first choice's message content and the flat `content` |
| SocialStoryApi.ResponsesShape | services/socialStoryApi.ts:113-121 | a Responses-style reply yields its output text |
| SocialStoryApi.ChoicesShape | services/socialStoryApi.ts:123-124 | a Chat-Completions-style reply yields its first choice's content |
| SocialStoryApi.OutputTextFirst | services/socialStoryApi.ts:123-127 | once the output text is found, neither the choices nor the flat content are consulted |
| SocialStoryApi.SceneOutcome | services/socialStoryApi.ts:87-145 | a failed fetch, a non-OK status (with its text) and an unreadable body reject with their messages; success exactly when content is found and parses, then the parsed scene; no content rejects with the extraction message, unparsable content with the JSON message |
| SocialStoryApi.GenerateSocialStoryScene | services/socialStoryApi.ts:8-146 | the system prompt sent is the one for this scene, scenario and child, the user prompt the one built from the earlier scenes, the two sent together; the result is how their reply settles |
| SocialStoryApi.PartsIncluded | services/socialStoryApi.ts:194-214 | a template of five parts includes its second and fourth |
| SocialStoryApi.SceneImageCall | services/socialStoryApi.ts:181-218 | edit mode exactly when a reference image is given, sent as the image; the edit prompt then, otherwise the generation prompt |
| SocialStoryApi.SheetCall | services/socialStoryApi.ts:152-175 | a reference sheet is a generation without an image, with the sheet prompt |
| SocialStoryApi.SceneImagePromptNamesScene | services/socialStoryApi.ts:194-214 | the scene image prompt names the scene description and the art style |
| SocialStoryApi.SheetPromptNamesCharacter | services/socialStoryApi.ts:158-172 | the sheet prompt names the character description and the art style |
| SocialStoryApi.ProxyEditsIffReference | services/socialStoryApi.ts:191-217 | the image endpoint takes its edit path exactly when the client passed a reference image |
| SocialStoryApi.ProxyNeverEditsSheet | services/socialStoryApi.ts:174 | a reference sheet never takes the edit path of the image endpoint |
| SocialStoryApi.ExtractImageUrl | services/socialStoryApi.ts:251-270 | a `null` body throws; `output_url` wins, then `url` |
| SocialStoryApi.FirstEntryUrl | services/socialStoryApi.ts:257-262 | the first entry's `url`, else its `b64_json` as a base64 PNG data URL, else nothing |
| SocialStoryApi.FirstImageUrl | services/socialStoryApi.ts:263-269 | a string image is kept when it starts with "http" and wrapped as base64 PNG data otherwise; of an object `url` is taken |
| SocialStoryApi.ImagesIgnoredWithDataArray | services/socialStoryApi.ts:257-263 | when `data` is an array, `images` is never consulted |
| SocialStoryApi.ImageUrlOutcome | services/socialStoryApi.ts:234-273 | a failed fetch and a non-OK status (with its text) fail with their messages; success exactly when a truthy URL is found, and then that URL |
| SocialStoryApi.FailedPrompt | services/socialStoryApi.ts:282 | the failure debug prompt opens with the failure message and ends with the attempted prompt |
| SocialStoryApi.CallBackendImageApi | services/socialStoryApi.ts:221-285 | never throws: the URL with the prompt sent on success; an empty URL and a debug prompt naming the failure and the attempted prompt otherwise |
| SocialStoryApi.UrlFieldKept | services/socialStoryApi.ts:255-256 | a non-empty string `url` comes back unchanged, whatever it starts with |
| SocialStoryApi.ImagesStringKeptOrWrapped | services/socialStoryApi.ts:263-266 | a string first in `images` comes back unchanged when it starts with "http", and as base64 PNG data otherwise |
| StartScreen.Without | components/StartScreen.tsx:204 | the selection without the id: every other id stays and nothing is added |
| StartScreen.ToggleSelection | components/StartScreen.tsx:201-212 | a selected id is removed and every other one kept; an unselected id is appended while fewer than three are selected, ignored otherwise |
| StartScreen.WithoutKeepsDistinct | components/StartScreen.tsx:204 | removing an id keeps the selection free of duplicates |
| StartScreen.ToggleKeepsSelectionValid | components/StartScreen.tsx:201-212 | toggling keeps the selection free of duplicates and at most three long |
| StartScreen.ToggleTwice | components/StartScreen.tsx:201-212 | selecting an id and then deselecting it restores the selection |
| StartScreen.WithoutAppended | components/StartScreen.tsx:204-209 | removing the id last appended gives back the earlier selection |
| StartScreen.SelectedNames | components/StartScreen.tsx:216-219 | exactly the names of the collected characters whose ids are selected: every selected character's name is listed and no other name is; empty exactly when none is selected |
| StartScreen.SelectedNamesAppend | components/StartScreen.tsx:216-219 | the names keep the collection's order: the names taken from one stretch of the collection come before those from the stretch after it |
| StartScreen.SelectionPrompt | components/StartScreen.tsx:217-229 | no sentence for no names; the solo, the pair and the group sentences for one, two and three or more; a group lists all names but the last in order, separated by ", ", then ", and " and the last name |
| StartScreen.GroupPromptNamesEveryone | components/StartScreen.tsx:226-228 | the group sentence names every selected character |
| StartScreen.SelectionPromptNamesEveryone | components/StartScreen.tsx:219-229 | whatever the number of names, the starting sentence names every selected character |
| StartScreen.StartWithSelection | components/StartScreen.tsx:215-237 | nothing starts when no collected character is selected; otherwise the adventure starts with that sentence, the fixed art style and the selected ids as they stand |
| StartScreen.SelectionAfterStart | components/StartScreen.tsx:217-238 | the selection is cleared once an adventure started and kept otherwise |
| StartScreen.Submit | components/StartScreen.tsx:190-198 | the adventure starts exactly when the sentence is not blank, with the sentence untrimmed and the fixed art style |
| StartScreen.AppendTranscript | components/StartScreen.tsx:178-183 | the transcript ends the text; before it the trimmed typed text and one space, or nothing when it was blank |
| StartScreen.FilteredCharacters | components/StartScreen.tsx:256-259 | exactly the collection entries whose name or description contains the query, ignoring case |
| StartScreen.EmptyQueryKeepsAll | components/StartScreen.tsx:256-259 | an empty search shows the whole collection in order |
| Forms.NonEmpty | components/ChildProfileForm.tsx:48 | a field left empty becomes `undefined`: absent exactly for the empty string, the string itself otherwise |
| Forms.SplitTrim | components/ChildProfileForm.tsx:50 | one trimmed piece per comma-separated piece |
| Forms.CommaList | components/CustomScenarioForm.tsx:35-36 | an empty field gives no list; any other field its trimmed comma-separated pieces |
| Forms.CommaListPieces | components/CustomScenarioForm.tsx:35-36 | every piece is trimmed and holds no comma; a list typed without spaces joins back to the text typed |
| Forms.Truthy | components/ChildProfileForm.tsx:38 | `filter(Boolean)` keeps exactly the non-empty parts |
| Forms.TruthyAppend | components/ChildProfileForm.tsx:38 | the filter keeps the parts' order: the survivors of one stretch come before those of the next |
| Forms.IfFilled | components/ChildProfileForm.tsx:34-36 | `field && text`: the text when the field is filled, empty otherwise |
| Forms.ChildAppearanceParts | components/ChildProfileForm.tsx:31-40 | the appearance opens with the child's age and mentions every filled-in feature; the age line alone when nothing else is given |
| Forms.ChildAppearanceJoin | components/ChildProfileForm.tsx:31-40 | the appearance is the age line followed by exactly the filled-in hair, eye, skin and feature parts, in that order, separated by ", ": an empty field leaves neither its text nor a separator |
| Forms.AddSpecificPerson | components/ChildProfileForm.tsx:58-64 | a person is appended only when both the role and the name are answered, the list is kept otherwise |
| Forms.RemovePerson | components/ChildProfileForm.tsx:66-68 | exactly the person at the index is removed and the rest keep their order; an index outside the list removes nobody |
| Forms.DropIndexInside | components/ChildProfileForm.tsx:67 | filtering out an index inside the list drops that one element |
| Forms.DropIndexOutside | components/ChildProfileForm.tsx:67 | filtering out an index outside the list keeps it whole |
| Forms.ProfileConfig | components/ChildProfileForm.tsx:28-56 | the submitted configuration names the chosen template, the child and the art style, describes the child's appearance, and carries the location only when typed, the people only when some were added, and the concerns as a comma list |
| Forms.CustomScenario | components/CustomScenarioForm.tsx:30-38 | the scenario as typed, with key people and concerns as comma lists and the details only when typed |
| Forms.CustomChild | components/CustomScenarioForm.tsx:40-45 | the child half: never an empty appearance (a blank one becomes the age line), the gentle watercolor style, no template and no customisations |
| Adventure.FirstFrom | App.tsx:109-112 | the first position from `from` on whose element satisfies the test, and none of the positions before it does; none when no position does |
| Adventure.FindFrom | App.tsx:107-112 | the first saved character from `from` on whose trimmed, lower-cased name contains or is contained in the searched name |
| Adventure.FindMatchingCharacter | App.tsx:107-113 | no character exactly when no saved name matches; otherwise the first saved character that matches |
| Adventure.BlankNameMatchesFirst | App.tsx:108-111 | a blank name is contained in every stored name, so it picks the first saved character |
| Adventure.SameNameFound | App.tsx:108-111 | a name equal to a saved one up to surrounding spaces and case is always found, at that character or an earlier one |
| Adventure.CacheKeyInjective | App.tsx:126 | `${depth}-${option}` keys of non-negative depths never collide: equal keys mean the same depth and the same option |
| Adventure.Commit | App.tsx:467-497 | after a choice the new step is shown, with its party, reference and ending flag; from a started state the index advances by one, later history and choices are dropped and the new step and choice appended, and the state stays started |
| Adventure.Back | App.tsx:502-524 | from the first step or before it, the initial state; otherwise the previous step is shown with the party and reference stored with it, the ending flag cleared and the history kept |
| Adventure.ChoiceAfterBackReplacesBranch | App.tsx:479-487 | going back and choosing again replaces the step that was current and its choice: the branch is overwritten, not extended |
| Adventure.BackRestoresParty | App.tsx:518-520 | going back after a choice restores the party, the reference image and the scene of the step before it |
| Adventure.FindById | App.tsx:193 | a found character carries that id and is saved; none exactly when no saved character has it |
| Adventure.Known | App.tsx:217-220 | the name and description of every known character, in order |
| Adventure.Images | App.tsx:300 | the party's images, one per member, in the party's order |
| Adventure.AddAppends | App.tsx:196 | setting a new id appends that member at the end of the party |
| Adventure.ExplicitPartyMembers | App.tsx:190-199 | the explicitly selected party holds each id once, exactly the selected ids that the collection holds |
| Adventure.PromptMatchesMembers | App.tsx:201-214 | the prompt scan keeps the party it started with in front, unchanged, and adds exactly the saved characters named as words in the sentence, no id twice |
| Adventure.StartingPartyMembers | App.tsx:185-214 | the starting party holds each id once: the selected characters first, then those named in the sentence |
| Adventure.FindPartyMember | App.tsx:241-245 | no member exactly when no party member's lower-cased name contains or is contained in the main character's; otherwise the first party member, in order, whose name does |
| Adventure.Options | App.tsx:123 | the options that are set, in order, none of them empty |
| Adventure.PrefetchStep | App.tsx:129-166 | an option is prefetched exactly when its story step succeeds without a new character, and the step carries the current party and reference |
| Adventure.FillCacheKeeps | App.tsx:160-166 | filling the cache keeps every entry it had |
| Adventure.FillCacheOnlyOptions | App.tsx:125-166 | every key that filling adds is the key of one of the options, holding that option's step |
| Adventure.FillCacheAdds | App.tsx:125-166 | an option whose key was missing gets an entry exactly when its step is present, and the entry is that step |
| Adventure.PrefetchedEntries | App.tsx:116-175 | prefetching keeps every cached entry, adds one entry per missing option that could be prefetched and none for the others, and every added entry belongs to an option and carries the party and reference current at prefetch time |
| Adventure.WithoutCharacterKeepsOthers | App.tsx:96-100 | deleting from the collection keeps exactly the characters with another id, never grows it, and changes nothing when no character has that id |
| Adventure.WithoutCharacterAppend | App.tsx:98 | removal distributes over a split of the collection, so the survivors keep their order |
| SocialStoryFlow.TotalScenes | App.tsx:641 | the template's scene count when it is non-zero, else the custom scenario's when non-zero, else 6; never 0 |
| SocialStoryFlow.Introduction | App.tsx:753 | none exactly when no scene introduces the role; otherwise the person of the first scene that does |
| SocialStoryFlow.RefsAfterUnique | App.tsx:682-693 | the reference map never lists a role twice |
| SocialStoryFlow.RefsAfterStep | App.tsx:680-706 | one more scene keeps every role's entry equal to the sheet of the role's first introduction |
| SocialStoryFlow.RefsAfterByRole | App.tsx:662-706 | after any scenes, each role maps to the sheet drawn for the person who introduced it first, even an empty image; a role nobody introduced has no entry |
| SocialStoryFlow.ReintroductionKeepsSheet | App.tsx:682-683 | introducing a role again draws no second sheet and leaves the map as it was |
| SocialStoryFlow.SceneRefs | App.tsx:711-727 | at most two references, none empty: the child's sheet first when it has an image, then the sheet of the person this scene introduces; a scene without a new person gets the child's sheet alone |
| SocialStoryFlow.Composite | App.tsx:729-734 | no references, no composite; otherwise the merge of them, whose failure ends the story |
| SocialStoryFlow.UnmentionedRolesAddNothing | App.tsx:747-758 | a scene that mentions none of the recorded roles adds no recurring description |
| SocialStoryFlow.EnhancedPromptFrame | App.tsx:738-761 | the enhanced prompt always opens by describing the child and ends with the scene's own image description |
| SocialStoryFlow.SceneStep | App.tsx:708-783 | the step appended for a scene carries exactly that scene |
| SocialStoryFlow.NoReferenceWithoutPeople | App.tsx:715-734 | with no child image and no person in the scene nothing is merged and the picture is drawn without a reference |
| StoryApp.ScanParty | App.tsx:185-214 | the loop over the selected ids and then over the collection builds the same party as ExplicitParty followed by PromptMatches |
| StoryApp.FromCollectionKeys | App.tsx:251-282 | a main character found in or added to the collection keeps the party's ids unique, and the party grows by at most one member |
| StoryApp.FallbackKeys | App.tsx:285-297 | the fallback hero keeps the party's ids unique and adds at most one member |
| StoryApp.MainCharacterKeys | App.tsx:235-297 | step C as a whole keeps the party's ids unique and adds at most one member |
| StoryApp.FromCollectionJoins | App.tsx:251-282 | a saved character whose name matches joins under its own id; otherwise the drawn character joins under the new id exactly when its sheet came back non-empty; all other ids keep their member |
| StoryApp.PartyMemberKept | App.tsx:241-249 | a main character already in the party adds nobody and draws nothing |
| StoryApp.FallbackOnlyForEmptyParty | App.tsx:285-297 | only an empty party gets the "fallback" Hero, and only when its sheet is non-empty; the fallback is never collected |
| StoryApp.AddFromCollection | App.tsx:251-282 | the handler's branch for a name outside the party computes exactly the FromCollection pick |
| StoryApp.AddMainCharacter | App.tsx:235-297 | the handler's step C computes exactly the MainCharacter pick |
| StoryApp.Prepended | App.tsx:277 | a newly drawn character is put first in the collection, ahead of the saved ones, which are otherwise unchanged |
| StoryApp.Opening | App.tsx:309-336 | the state a successful start sets: index 0, depth 1, one history entry, empty path and empty cache, not ending, the party's images and the reference kept, and the first picture drawn against the reference |
| StoryApp.MainCharacterDraws | App.tsx:259-282 | a main character is drawn only when the scene gives a concept and no party member or saved character has that name; it gets the new id and a non-empty sheet and sits in the party |
| StoryApp.StartOutcome | App.tsx:178-345 | a start without an error leaves a started game at index 0 with one step and an empty path and cache; with an error the game is unchanged; an unlocked character is prepended to the collection with the new id and a non-empty image, and otherwise the collection is unchanged |
| StoryApp.Start | App.tsx:178-345 | the handler computes StartResult and keeps the current index inside the history |
| StoryApp.MergeParty | App.tsx:299-307 | the reference is the merge of the party's images (the single image when there is one) and the debug note gains the merge note only when more than one image is merged |
| StoryApp.CachedChoiceSkipsGenerator | App.tsx:352-369 | a choice found in the prefetch cache never asks the story generator and yields the cached scene |
| StoryApp.UnlockStep | App.tsx:387-435 | a scene without a new character changes nothing; a returning friend joins the party only if their image is not there yet; a drawn character is collected only with a non-empty sheet; the party grows by exactly the character shown as unlocked |
| StoryApp.Unlock | App.tsx:387-435 | the handler's step B computes exactly UnlockStep |
| StoryApp.ReturningFriendNoDuplicate | App.tsx:399-405 | a returning friend never puts an image in the party twice |
| StoryApp.ChoiceStepDraws | App.tsx:437-465 | the new step keeps the scene and the party; a merge that changes the reference replaces it and throws the cached picture away; otherwise a cached picture is kept and a missing one is drawn against the reference |
| StoryApp.FindScene | App.tsx:352-385 | the handler's step A computes exactly NextScene |
| StoryApp.DrawStep | App.tsx:437-477 | the handler's steps D and E compute exactly ChoiceStep |
| StoryApp.ChoiceFailure | App.tsx:348-385 | without a config nothing changes; a failed story step leaves the game and the collection as they were and shows no unlock; a cached choice never fails |
| StoryApp.ChoiceParty | App.tsx:387-449 | a successful choice keeps the prefetch cache, grows the party by exactly the character shown as unlocked, and the collection either stays or gains that character in front |
| StoryApp.ChoiceAdvances | App.tsx:479-497 | a successful choice puts its step right after the current one, keeps the history up to it, and extends the path by the choice |
| StoryApp.ChoiceOutcome | App.tsx:347-500 | all of ChoiceFailure, ChoiceParty and ChoiceAdvances about one call of handleChoice |
| StoryApp.CommitKeepsPosition | App.tsx:479-487 | after a commit the current index is inside the history and points at the new step |
| StoryApp.Choose | App.tsx:347-500 | the handler computes ChoiceResult and keeps the current index inside the history |
| StoryApp.BuildEnhancedPrompt | App.tsx:738-761 | the loop over the scene's roles builds exactly EnhancedPrompt |
| StoryApp.ImageForScene | App.tsx:708-770 | the handler's picture step for a scene computes exactly SceneStep |
| StoryApp.ScenesOf | App.tsx:777-781 | the scenes of the steps, one per step and in order |
| StoryApp.ScenePictureOfScene | App.tsx:774-781 | a picture step, when it succeeds, carries the scene it was asked for |
| StoryApp.Round | App.tsx:665-784 | one pass of the loop: without a failure one scene and one step are appended and the earlier ones are kept; after a failure the steps are unchanged and at most one scene was added |
| StoryApp.StoryRun | App.tsx:665-784 | after n passes without a failure there are exactly n scenes and n steps; after a failure fewer than n steps; never more steps than scenes |
| StoryApp.Rounds | App.tsx:665-784 | the same bounds for a loop of at least one pass |
| StoryApp.StoryRunNext | App.tsx:668-783 | pass i asks for scene i with the scenes before it, and stops with the generator's or the picture's error, or appends the new scene and its step |
| StoryApp.StoryRunStops | App.tsx:665-794 | once a pass fails no later pass runs, and the error is what the try block reports |
| StoryApp.StoryRunSteps | App.tsx:777-781 | without a failure the steps' scenes are exactly the generated scenes |
| StoryApp.StoryRunReplays | App.tsx:668-675 | without a failure scene k+1 was asked for with exactly the k scenes before it |
| StoryApp.RoundKeepsReply | App.tsx:668-783 | a successful pass appends exactly the generator's scene and the picture step's result |
| StoryApp.SetAllAppend | App.tsx:695-702 | setting one more fresh entry after the others is the same as setting it last |
| StoryApp.SetAllKeepsKeysUnique | App.tsx:695-702 | copying references into the people map keeps its keys unique |
| StoryApp.SetAllGet | App.tsx:695-702 | after the copy a role has the copied reference when there is one, and its old value otherwise |
| StoryApp.PeopleRefsAfterRun | App.tsx:693-702 | after the loop a role's reference is the first sheet drawn for it in the run, or the one it had before |
| AppComponent.GenerationOutcome | App.tsx:634-802 | generateStory keeps the scenes the story had and appends after them; without a failure exactly the asked-for number of scenes is appended, each step pictures its own generated scene, the story is complete and shown; after a failure fewer are appended, completeness is unchanged and the selector is back |
| AppComponent.KeepScene | App.tsx:680-706 | keeping a generated scene appends it and gives a role no earlier scene introduced its sheet, in the local map and in the story's people map |
| AppComponent.AppendStep | App.tsx:777-783 | the picture step is appended to the story, which is still generating unless it was the last scene |
| AppComponent.SceneRound | App.tsx:668-784 | one pass of the handler's loop gives exactly the next pass of StoryRun, with the people map and the story state that pass implies |
| AppComponent.Generate | App.tsx:665-794 | the handler's loop stops at the first error and otherwise completes the story; its story and error are those of StoryRun |
| AppComponent.GenerateSocial | App.tsx:634-802 | the child's sheet, then the loop, then the config, story and view generateStory leaves; the people map keeps its roles unique |
| AppComponent.App.constructor | App.tsx:64-85 | mounting shows the selector with an empty story, reads the collection back (empty when nothing is stored) and lists the saved stories |
| AppComponent.App.HandleDeleteCharacter | App.tsx:96-100 | once confirmed, every character with that id leaves the collection; nothing else changes |
| AppComponent.App.Restart | App.tsx:526-531 | the initial game, no config, no error and nobody unlocked; the collection and the social story stay |
| AppComponent.App.HandleBack | App.tsx:502-524 | from the first step or before it a restart; otherwise one step back, with that step's party and reference |
| AppComponent.App.StartStory | App.tsx:178-345 | the config is kept and the adventure's fields become StartResult |
| AppComponent.App.HandleChoice | App.tsx:347-500 | the adventure's fields become ChoiceResult; nothing else changes |
| AppComponent.App.Prefetch | App.tsx:116-175 | without a config, a scene, a reference, or at the end nothing changes; otherwise each option whose key the cache lacked is prefetched into the cache and nothing else changes |
| AppComponent.App.GenerateStory | App.tsx:634-802 | the social story's fields become GeneratedSocial and the error is the loop's failure, if any |
| AppComponent.App.ProfileSubmit | App.tsx:804-807 | the story of the selected template is generated |
| AppComponent.App.CustomSubmit | App.tsx:809-821 | the scenario is kept and its story generated without a template |
| AppComponent.App.SelectTemplate | App.tsx:535-541 | the template is selected and its profile form shown, for a story not saved yet |
| AppComponent.App.SelectCustom | App.tsx:543-548 | the custom form is shown, for a story not saved yet |
| AppComponent.App.ViewLibrary | App.tsx:576-579 | the library is shown; nothing else changes |
| AppComponent.App.ShowSelector | App.tsx:836-857 | the back buttons of the forms and the library show the selector; nothing else changes |
| AppComponent.App.LeaveStory | App.tsx:867-884 | the viewer's back button goes to the library for a saved story and to the selector otherwise, with an empty story and nothing saved |
| AppComponent.App.HandleSaveStory | App.tsx:581-593 | without a config, or when the write fails, nothing changes; otherwise the converted story is stored in front of the others and marked saved and current, and the list is read again |
| AppComponent.App.HandleViewSavedStory | App.tsx:595-624 | the story is shown complete from its first scene with its saved config; a role's reference in the shown story is the one the record holds for it; a failed write or an unknown id leaves storage as it was; otherwise storage holds the listing with the first story of that id viewed `now` |
| AppComponent.App.HandleDeleteStory | App.tsx:626-632 | after a successful delete storage holds the list without that id and the list is read again; a failed write changes nothing |
| Storage.Insert | services/storageService.ts:72 | inserting a story keeps every story and adds exactly that one |
| Storage.InsertKeepsOrder | services/storageService.ts:72 | inserting into a most-recent-first list keeps it most recent first |
| Storage.SortByLastViewed | services/storageService.ts:71-72 | the listing is most recent first and is a permutation of the stored stories |
| Storage.SortIsStable | services/storageService.ts:72 | the sort is stable: the stories viewed at any one time appear in the listing in their stored order |
| Storage.SortSorted | services/storageService.ts:72 | sorting a list that is already most recent first leaves it as it is |
| Storage.ConvertToSavedStory | services/storageService.ts:8-28 | the saved record takes the id and the time, the template's id and the scenario's title when there are any, the child's name and the scenes, "" for a missing child sheet, the first scene's image as thumbnail (none without scenes), and the people map as a record |
| Storage.PeopleRefsRoundTrip | services/storageService.ts:25 | turning the saved record back into a map gives every role the reference the story's map had for it |
| Storage.FindStory | services/storageService.ts:84 | no result exactly when no story has the id; otherwise the first story with it |
| Storage.FirstIndex | services/storageService.ts:111 | the index of the first story with the id |
| Storage.WithoutStory | services/storageService.ts:93 | a story stays exactly when its id differs; the list never grows |
| Storage.WithoutStoryAppend | services/storageService.ts:93 | filtering a concatenation filters each part |
| Storage.WithoutStoryKeepsOrder | services/storageService.ts:93 | filtering keeps a most-recent-first list most recent first |
| Storage.ConsMostRecentFirst | services/storageService.ts:44 | a story at least as recent as all the others can go in front of a most-recent-first list |
| Storage.StoryStore.constructor | services/storageService.ts:3 | the store starts with the slot as found |
| Storage.StoryStore.SavedStories | services/storageService.ts:64-77 | the stored stories most recent first, and none when the slot is empty or unreadable |
| Storage.StoryStore.StoryById | services/storageService.ts:82-85 | no result exactly when no listed story has the id; otherwise the first listed story with it |
| Storage.StoryStore.Count | services/storageService.ts:125-127 | the number of stored stories, zero when none can be read |
| Storage.StoryStore.SaveStory | services/storageService.ts:33-59 | a failed write stores nothing and gives no result; otherwise the converted story is stored in front of the listed ones and returned |
| Storage.StoryStore.DeleteStory | services/storageService.ts:90-103 | the result tells whether the write succeeded; the stored list then holds the listed stories without that id, and a failed write changes nothing |
| Storage.StoryStore.UpdateLastViewed | services/storageService.ts:108-120 | an unknown id or a failed write changes nothing; otherwise the listing is written back with the first story of that id viewed now |
| Storage.UpdateChangesOneEntry | services/storageService.ts:111-115 | only the viewed story changes, and only its timestamp |
| Storage.SavedStoryListedFirst | services/storageService.ts:40-46 | a story saved at the latest time is the first one listed afterwards |
| Templates.FindById | src/data/templates.ts:200-202 | no result exactly when no template has the id; otherwise the first template with it |
| Templates.InCategory | src/data/templates.ts:207-209 | a template is kept exactly when it is in the list and of that category |
| Templates.ForAge | src/data/templates.ts:214-216 | a template is kept exactly when its age range holds the age, both bounds included |
| Templates.InCategoryAppend | src/data/templates.ts:208 | the category filter keeps the table's order |
| Templates.ForAgeAppend | src/data/templates.ts:215 | the age filter keeps the table's order |
| Templates.CategoriesPartition | src/data/templates.ts:207-209 | the five category filters count every template of any list exactly once |
| Templates.LibraryPartition | src/data/templates.ts:10-209 | the table's templates are split exactly among the five categories |
| Templates.SocialOfFifteen | src/data/templates.ts:208 | a fifteen-entry table whose only social entries are the 13th and 14th filters to those two, in order |
| Templates.LibraryCategories | src/data/templates.ts:10-195 | the table has fifteen entries; the birthday party and the playdate, the 13th and 14th, are its only social ones, and the library visit after them is a daily routine |
| Templates.SocialTemplates | src/data/templates.ts:163-209 | the social category holds exactly the birthday party and the playdate, in table order |
| JsMap.Get | App.tsx:723 | no value exactly when the key is absent |
| JsMap.IndexOf | App.tsx:682 | the position of the first entry with a present key |
| JsMap.GetAt | App.tsx:723 | a lookup answers with the value at the key's first position |
| JsMap.Set | App.tsx:693-697 | setting a present key keeps the key order, an absent key goes last; the key then maps to the new value and every other key keeps its value |
| JsMap.SetKeepsKeysUnique | App.tsx:693-697 | setting a key never lists a key twice |
| JsMap.SetGrowsByOne | App.tsx:196-294 | setting keeps every key in place and adds at most one entry |
| JsMap.ToRecord | services/storageService.ts:25 | the record's keys are exactly the map's keys |
| JsMap.FromRecord | App.tsx:607 | the map lists the record's keys in the order they are visited, each with the record's value |
| JsMap.GetOfToRecord | services/storageService.ts:25 | a key is in the record exactly when the map has it, with the same value |
| JsMap.GetLastEntry | services/storageService.ts:25 | the last entry of a map with unique keys answers for its own key, and the earlier entries for every other key |
| JsMap.GetOfFromRecord | App.tsx:607 | a key of the rebuilt map holds the record's value, and a key the record lacks is absent |
| JsMap.FromRecordAt | App.tsx:607 | a key listed once in the visiting order holds the record's value |
| JsMap.RecordRoundTrip | App.tsx:607 | turning a Map into a plain object and back keeps every key and its value, whatever order the keys are visited in |
| Js.LeadingSpaces | components/StartScreen.tsx:181 | the number of white-space characters before the first other one |
| Js.TrailingSpaces | components/StartScreen.tsx:181 | the number of white-space characters after the last other one |
| Js.TrimStart | components/StartScreen.tsx:181 | a suffix of the string that starts with a non-space, what it drops is blank, and it is empty exactly for a blank string |
| Js.TrimEnd | components/StartScreen.tsx:181 | a prefix of the string that ends with a non-space, what it drops is blank, and it is empty exactly for a blank string |
| Js.Trim | App.tsx:108 | the string with its blank ends removed: the input is a whitespace-only front, then the result, then a whitespace-only back; the result starts and ends with a non-space and is empty exactly for a blank string |
| Js.ToLower | App.tsx:108 | the same length, each character lower-cased |
| Js.IncludesAt | App.tsx:752 | `includes` holds exactly when the substring occurs at some position |
| Js.JoinIncludesParts | App.tsx:752 | every part occurs in the joined string |
| Js.IncludesSuffix | App.tsx:752 | what occurs in a string still occurs after text is put in front of it |
| Js.IncludesPrefix | App.tsx:752 | what occurs in a string still occurs after text is appended to it |
| Js.ConcatAppend | App.tsx:738-761 | building a text from two parts in a row is building each and joining them |
| Js.SliceTo | App.tsx:479-480 | `slice(0, end)` counts a negative end from the back and stops at the length |
| Js.Split | components/ChildProfileForm.tsx:50 | at least one piece, no piece holds the separator, and joining the pieces with it gives the string back |
| Js.SplitWithoutSeparator | components/ChildProfileForm.tsx:50 | a string without the separator splits into itself |
| Js.SplitAtFirst | components/ChildProfileForm.tsx:50 | splitting at the first separator gives the text before it, then the pieces of the rest |
| Js.NatToStringRoundTrip | App.tsx:126 | reading the decimal digits back gives the number |
| Js.NatToStringDigits | App.tsx:126 | a number prints as decimal digits only |
| Js.NatToStringInjective | App.tsx:126 | two numbers that print alike are equal |
| Json.Prop | services/socialStoryApi.ts:113 | reading a property throws exactly on `undefined` and `null`; on an object it gives the field or `undefined` |
| Json.OptProp | services/socialStoryApi.ts:113 | optional chaining gives the property, or `undefined` where reading it would throw |
| Json.Elem | services/socialStoryApi.ts:123 | indexing throws exactly on `undefined` and `null` |
| Json.FindByType | services/socialStoryApi.ts:114-116 | a found item is in the array and has the asked-for type |
| Json.FindByTypeFirst | services/socialStoryApi.ts:114-116 | the result is the first item with the asked-for type |

## Left out

- Rendering: the JSX of every component, and components/StoryScreen.tsx, components/SocialStoryViewer.tsx, components/ScenarioSelector.tsx, components/SavedStoriesLibrary.tsx and src/Stage1Test.tsx, which only display state.
- The network: `fetch` of the text and image services is a function from the request to the reply. api/text/index.js, api/debug/index.js and api/shared/config.js are not part of this model: they forward requests, report configuration and read the environment.
- `generateStoryStep`, the adventure's story generator, is called in App.tsx but defined nowhere in the repository. It is a parameter (`StepService`), and so are the image service, the composite merge and the character sheet drawer.
- SocialStoryApi.ImageUrlOutcome: a truthy URL that is not a string comes back as its string form, where the code returns the raw value; an image result holds a string here.
- Parsed JSON numbers are integers, and objects are maps. Fractional numbers, key order and duplicate keys are not modelled.
- Forms.ProfileConfig: the child's age is an integer. Clearing the number field makes `parseInt` return `NaN` (components/ChildProfileForm.tsx:126), and the source would then write "A NaN-year-old child"; an `int` has no such value, so that description is not modelled.
- `JSON.parse` and `JSON.stringify` are function parameters where the code parses model output or prints upstream bodies. Local storage is a lossless slot; whether a write throws is a parameter of each writing operation.
- The storage-quota `alert` on a failed save, the success `alert` after a save (App.tsx:591), and the confirmation dialog of `handleDeleteCharacter`, which is the `confirmed` parameter.
- Timing: the one-second debounce before prefetching, the prefetch racing a choice, stale closures, and the one-second pause between image retries, which is only counted. Prefetch runs once, to completion, on the state it was scheduled with. It checks that state's cache, so an option text that occurs twice is fetched twice.
- `isLoading`, the loading flag of the social story, and the `console` logging.
- The effect that writes the collection to local storage whenever it changes, and the debug `fetch` on mount. The mount reads the collection back as an already parsed value.
- `handleSelectExample` and the static example stories of src/data/examples.ts, config.ts and the kid-friendly prompt list: static data.
- The word-boundary test of the starting sentence is the `wordIn` parameter. JavaScript's regular expressions are not modelled, and neither is the exception a character name that is not a valid pattern would raise.
- Browser images and the canvas: each image's load outcome and the order in which the loads are reported are inputs, and `toDataURL` is a function parameter. An image of height 0 is not modelled. Widths and offsets are exact real numbers, not double-precision floats; rounding by the floating point unit is not modelled.
- Speech: the speech synthesiser's calls are recorded in the reader's state rather than performed. Speech recognition delivers a transcript string, and the voice list is an input.
- `crypto.randomUUID`, `Date.now` and `Math.random` are parameters (`newId`, `now`).
- `trim` treats only ASCII white space as blank, and `toLowerCase` folds only ASCII letters: there is no Unicode case folding.
- Image prompt prose: the edit prompt and the reference-sheet prompt (services/socialStoryApi.ts:158-171 and 196-211) keep only their first line, the line that names the description, the "Requirements:" heading, the art-style line and the closing line about signatures. Their other fixed instruction lines are left out; no branch depends on them. The system and user prompts of the text model are modelled word for word.
- Templates.GetTemplateById, Templates.GetTemplatesByCategory, Templates.GetTemplatesForAge: these apply FindById, InCategory and ForAge to the table, and the contracts are stated on those.
- React's batching of state updates: each handler's updates are applied in order, and the state is grouped into records that the handlers replace.
