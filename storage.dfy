/**
 * The saved-story library (services/storageService.ts). The browser's
 * localStorage slot under 'social_story_builder_stories' is a field of the
 * store; JSON serialisation is taken to be lossless, and whether writing the
 * slot throws (the storage quota) is a parameter of every writing operation.
 */
module Storage {
  import opened Js
  import opened Types
  import JsMap

  /** What the storage slot holds. */
  datatype Slot =
    | Empty                                   // nothing stored, or ""
    | Unreadable                              // JSON.parse throws, or not an array
    | Stories(stories: seq<SavedSocialStory>)

  // ---------------------------------------------------------------------------
  // Sorting by lastViewed, most recent first
  // ---------------------------------------------------------------------------

  predicate MostRecentFirst(s: seq<SavedSocialStory>) {
    forall i, j | 0 <= i < j < |s| :: s[i].lastViewed >= s[j].lastViewed
  }

  /** Places `x` before the first story viewed no later than it. */
  function Insert(x: SavedSocialStory, s: seq<SavedSocialStory>): (r: seq<SavedSocialStory>)
    ensures multiset(r) == multiset(s) + multiset{x}
    ensures |r| == |s| + 1
  {
    if s == [] then [x]
    else if x.lastViewed >= s[0].lastViewed then [x] + s
    else
      assert s == [s[0]] + s[1..];
      [s[0]] + Insert(x, s[1..])
  }

  lemma {:induction false} InsertKeepsOrder(x: SavedSocialStory, s: seq<SavedSocialStory>)
    requires MostRecentFirst(s)
    ensures MostRecentFirst(Insert(x, s))
    decreases |s|
  {
    if s != [] && x.lastViewed < s[0].lastViewed {
      assert MostRecentFirst(s[1..]);
      InsertKeepsOrder(x, s[1..]);
      var rest := Insert(x, s[1..]);
      forall y | y in rest ensures s[0].lastViewed >= y.lastViewed {
        assert y in multiset(rest);
        assert y == x || y in multiset(s[1..]);
      }
    }
  }

  /** `stories.sort((a, b) => b.lastViewed - a.lastViewed)`: a stable
      insertion sort, so stories viewed at the same time keep their order
      (SortIsStable). */
  function SortByLastViewed(s: seq<SavedSocialStory>): (r: seq<SavedSocialStory>)
    ensures MostRecentFirst(r)
    ensures multiset(r) == multiset(s)
    ensures |r| == |s|
  {
    if s == [] then []
    else
      assert s == [s[0]] + s[1..];
      InsertKeepsOrder(s[0], SortByLastViewed(s[1..]));
      Insert(s[0], SortByLastViewed(s[1..]))
  }

  lemma {:induction false} InsertFirst(x: SavedSocialStory, s: seq<SavedSocialStory>)
    requires forall i | 0 <= i < |s| :: x.lastViewed >= s[i].lastViewed
    ensures Insert(x, s) == [x] + s
  {
  }

  /** The stories viewed at time `t`, in list order. */
  function ViewedAt(s: seq<SavedSocialStory>, t: int): (r: seq<SavedSocialStory>)
    ensures forall x :: x in r <==> x in s && x.lastViewed == t
  {
    if s == [] then []
    else if s[0].lastViewed == t then [s[0]] + ViewedAt(s[1..], t)
    else ViewedAt(s[1..], t)
  }

  /** Inserting overtakes only stories viewed strictly later, so no story
      viewed at the same time as `x` changes places with it. */
  lemma {:induction false} InsertViewedAt(x: SavedSocialStory, s: seq<SavedSocialStory>, t: int)
    ensures ViewedAt(Insert(x, s), t) == ViewedAt([x] + s, t)
    decreases |s|
  {
    if s != [] && x.lastViewed < s[0].lastViewed {
      var rest := Insert(x, s[1..]);
      assert ([s[0]] + rest)[1..] == rest;
      assert ([x] + s)[1..] == s;
      assert ([x] + s[1..])[1..] == s[1..];
      InsertViewedAt(x, s[1..], t);
    }
  }

  /** The sort is stable: stories viewed at the same time keep their stored
      order, as `Array.prototype.sort` guarantees. */
  lemma {:induction false} SortIsStable(s: seq<SavedSocialStory>, t: int)
    ensures ViewedAt(SortByLastViewed(s), t) == ViewedAt(s, t)
    decreases |s|
  {
    if s != [] {
      var sorted := SortByLastViewed(s[1..]);
      SortIsStable(s[1..], t);
      InsertViewedAt(s[0], sorted, t);
      assert ([s[0]] + sorted)[1..] == sorted;
    }
  }

  /** Sorting a list that is already most recent first changes nothing. */
  lemma {:induction false} SortSorted(s: seq<SavedSocialStory>)
    requires MostRecentFirst(s)
    ensures SortByLastViewed(s) == s
    decreases |s|
  {
    if s != [] {
      assert MostRecentFirst(s[1..]);
      SortSorted(s[1..]);
      InsertFirst(s[0], s[1..]);
      assert [s[0]] + s[1..] == s;
    }
  }

  // ---------------------------------------------------------------------------
  // Conversion
  // ---------------------------------------------------------------------------

  /** convertToSavedStory: a snapshot of a finished story under a fresh id,
      created and last viewed `now`. */
  function ConvertToSavedStory(
    story: SocialStoryState, config: SocialStoryConfig,
    template: Option<SocialStoryTemplate>, custom: Option<CustomScenarioInput>,
    id: string, now: int): (r: SavedSocialStory)
    ensures r.id == id && r.createdAt == now && r.lastViewed == now
    ensures r.templateId == (if template.Some? then Some(template.value.id) else None)
    ensures r.customTitle == (if custom.Some? then Some(custom.value.title) else None)
    ensures r.childName == config.childName && r.scenes == story.scenes
    ensures r.childCharacterRef == (if Present(story.childCharacterRef) then story.childCharacterRef.value else "")
    ensures story.scenes == [] ==> r.thumbnail.None?
    ensures story.scenes != [] ==> r.thumbnail == Some(story.scenes[0].imageUrl)
    ensures JsMap.UniqueKeys(story.peopleRefs) ==>
      forall role :: JsMap.Get(story.peopleRefs, role).Some? <==> role in r.peopleRefs
  {
    var refs := JsMap.ToRecord(story.peopleRefs);
    assert JsMap.UniqueKeys(story.peopleRefs) ==>
      forall role :: JsMap.Get(story.peopleRefs, role).Some? <==> role in refs by {
      if JsMap.UniqueKeys(story.peopleRefs) {
        forall role ensures JsMap.Get(story.peopleRefs, role).Some? <==> role in refs {
          JsMap.GetOfToRecord(story.peopleRefs, role);
        }
      }
    }
    SavedSocialStory(
      id,
      if template.Some? then Some(template.value.id) else None,
      if custom.Some? then Some(custom.value.title) else None,
      config.childName, now, now, story.scenes,
      if Present(story.childCharacterRef) then story.childCharacterRef.value else "",
      refs,
      if story.scenes != [] then Some(story.scenes[0].imageUrl) else None)
  }

  /** Saving a story and opening it again gives back every role's reference
      image, whatever order the saved record's keys are read in. */
  lemma PeopleRefsRoundTrip(story: SocialStoryState, config: SocialStoryConfig,
    template: Option<SocialStoryTemplate>, custom: Option<CustomScenarioInput>,
    id: string, now: int, order: seq<string>, role: string)
    requires JsMap.UniqueKeys(story.peopleRefs)
    requires JsMap.EnumeratesKeys(ConvertToSavedStory(story, config, template, custom, id, now).peopleRefs, order)
    ensures JsMap.Get(JsMap.FromRecord(ConvertToSavedStory(story, config, template, custom, id, now).peopleRefs, order), role)
         == JsMap.Get(story.peopleRefs, role)
  {
    JsMap.RecordRoundTrip(story.peopleRefs, order, role);
  }

  // ---------------------------------------------------------------------------
  // The store
  // ---------------------------------------------------------------------------

  /** `stories.find(story => story.id === id)` */
  function FindStory(s: seq<SavedSocialStory>, id: string): (r: Option<SavedSocialStory>)
    ensures r.None? <==> forall i | 0 <= i < |s| :: s[i].id != id
    ensures r.Some? ==> r.value == s[FirstIndex(s, id)]
  {
    if s == [] then None
    else if s[0].id == id then Some(s[0])
    else FindStory(s[1..], id)
  }

  /** `stories.findIndex(story => story.id === id)`, for a present id. */
  function FirstIndex(s: seq<SavedSocialStory>, id: string): (i: nat)
    requires exists k | 0 <= k < |s| :: s[k].id == id
    ensures i < |s| && s[i].id == id
    ensures forall j | 0 <= j < i :: s[j].id != id
  {
    if s[0].id == id then 0
    else
      assert exists k | 0 <= k < |s[1..]| :: s[1..][k].id == id by {
        var k :| 0 <= k < |s| && s[k].id == id;
        assert s[1..][k - 1].id == id;
      }
      1 + FirstIndex(s[1..], id)
  }

  /** `stories.filter(story => story.id !== id)` */
  function WithoutStory(s: seq<SavedSocialStory>, id: string): (r: seq<SavedSocialStory>)
    ensures |r| <= |s|
    ensures forall x :: x in r <==> x in s && x.id != id
  {
    if s == [] then []
    else if s[0].id == id then WithoutStory(s[1..], id)
    else [s[0]] + WithoutStory(s[1..], id)
  }

  /** Removing a story keeps the others in their order: the filter of two
      consecutive parts is the filter of each, one after the other. */
  lemma {:induction false} WithoutStoryAppend(a: seq<SavedSocialStory>, b: seq<SavedSocialStory>, id: string)
    ensures WithoutStory(a + b, id) == WithoutStory(a, id) + WithoutStory(b, id)
    decreases |a|
  {
    if a == [] {
      assert a + b == b;
    } else {
      assert (a + b)[0] == a[0];
      assert (a + b)[1..] == a[1..] + b;
      WithoutStoryAppend(a[1..], b, id);
    }
  }

  /** A list is most recent first before and after removing stories. */
  lemma {:induction false} WithoutStoryKeepsOrder(s: seq<SavedSocialStory>, id: string)
    requires MostRecentFirst(s)
    ensures MostRecentFirst(WithoutStory(s, id))
    decreases |s|
  {
    if s != [] {
      assert MostRecentFirst(s[1..]);
      WithoutStoryKeepsOrder(s[1..], id);
      if s[0].id != id {
        var rest := WithoutStory(s[1..], id);
        forall y | y in rest ensures y.lastViewed <= s[0].lastViewed {
          var j :| 0 <= j < |s[1..]| && s[1..][j] == y;
          assert s[j + 1] == y;
        }
        ConsMostRecentFirst(s[0], rest);
      }
    }
  }

  /** A story viewed no earlier than every story of a most-recent-first list
      can go in front of it. */
  lemma ConsMostRecentFirst(x: SavedSocialStory, rest: seq<SavedSocialStory>)
    requires MostRecentFirst(rest)
    requires forall y | y in rest :: y.lastViewed <= x.lastViewed
    ensures MostRecentFirst([x] + rest)
  {
    var r := [x] + rest;
    forall i, j | 0 <= i < j < |r| ensures r[i].lastViewed >= r[j].lastViewed {
      assert r[j] == rest[j - 1];
      if i > 0 {
        assert r[i] == rest[i - 1];
      } else {
        assert rest[j - 1] in rest;
      }
    }
  }

  class StoryStore {
    var slot: Slot

    constructor (initial: Slot)
      ensures slot == initial
    {
      slot := initial;
    }

    /** getSavedStories: the stored stories, most recent first; none when the
        slot is empty or cannot be read. */
    function SavedStories(): (r: seq<SavedSocialStory>)
      reads this
      ensures MostRecentFirst(r)
      ensures slot.Stories? ==> multiset(r) == multiset(slot.stories)
      ensures !slot.Stories? ==> r == []
    {
      match slot
      case Stories(stories) => SortByLastViewed(stories)
      case _ => []
    }

    /** getStoryById: the first story with that id, in listing order. */
    function StoryById(id: string): (r: Option<SavedSocialStory>)
      reads this
      ensures r.None? <==> forall i | 0 <= i < |SavedStories()| :: SavedStories()[i].id != id
      ensures r.Some? ==> r.value in SavedStories() && r.value.id == id
      ensures r.Some? ==>
        exists i | 0 <= i < |SavedStories()| ::
          SavedStories()[i] == r.value && forall j | 0 <= j < i :: SavedStories()[j].id != id
    {
      FindStory(SavedStories(), id)
    }

    /** getSavedStoriesCount */
    function Count(): (n: nat)
      reads this
      ensures slot.Stories? ==> n == |slot.stories|
      ensures !slot.Stories? ==> n == 0
    {
      |SavedStories()|
    }

    /** saveStory: the new story goes in front of the listed ones; when the
        write fails, nothing is stored and there is no result. */
    method SaveStory(
      story: SocialStoryState, config: SocialStoryConfig,
      template: Option<SocialStoryTemplate>, custom: Option<CustomScenarioInput>,
      id: string, now: int, writeFails: bool) returns (r: Option<SavedSocialStory>)
      modifies this
      ensures writeFails ==> r.None? && slot == old(slot)
      ensures !writeFails ==>
        var saved := ConvertToSavedStory(story, config, template, custom, id, now);
        r == Some(saved) && slot == Stories([saved] + old(SavedStories()))
    {
      var saved := ConvertToSavedStory(story, config, template, custom, id, now);
      var existing := SavedStories();
      var updated := [saved] + existing;
      if writeFails {
        return None;
      }
      slot := Stories(updated);
      return Some(saved);
    }

    /** deleteStory: every story with that id goes, the others stay in listing
        order; the list is written even when nothing was stored. */
    method DeleteStory(id: string, writeFails: bool) returns (ok: bool)
      modifies this
      ensures ok == !writeFails
      ensures writeFails ==> slot == old(slot)
      ensures !writeFails ==> slot == Stories(WithoutStory(old(SavedStories()), id))
    {
      var stories := SavedStories();
      var updated := WithoutStory(stories, id);
      if writeFails {
        return false;
      }
      slot := Stories(updated);
      return true;
    }

    /** updateLastViewed: the first story with that id is marked viewed `now`
        and the listing is written back; an unknown id writes nothing. */
    method UpdateLastViewed(id: string, now: int, writeFails: bool)
      modifies this
      ensures (writeFails || forall i | 0 <= i < |old(SavedStories())| :: old(SavedStories())[i].id != id) ==>
        slot == old(slot)
      ensures !writeFails && (exists i | 0 <= i < |old(SavedStories())| :: old(SavedStories())[i].id == id) ==>
        var stories := old(SavedStories());
        var k := FirstIndex(stories, id);
        slot == Stories(stories[k := stories[k].(lastViewed := now)])
    {
      var stories := SavedStories();
      var found := FindStory(stories, id);
      if found.None? {
        return;
      }
      var k := FirstIndex(stories, id);
      stories := stories[k := stories[k].(lastViewed := now)];
      if writeFails {
        return;
      }
      slot := Stories(stories);
    }
  }

  /** Only the viewed story changes, and only its timestamp. */
  lemma UpdateChangesOneEntry(stories: seq<SavedSocialStory>, id: string, now: int)
    requires exists i | 0 <= i < |stories| :: stories[i].id == id
    ensures var k := FirstIndex(stories, id);
      var updated := stories[k := stories[k].(lastViewed := now)];
      && |updated| == |stories|
      && updated[k].lastViewed == now
      && updated[k] == stories[k].(lastViewed := now)
      && forall j | 0 <= j < |stories| && j != k :: updated[j] == stories[j]
  {
  }

  /** A story just saved with the latest timestamp is the first one listed
      afterwards. */
  lemma SavedStoryListedFirst(saved: SavedSocialStory, listed: seq<SavedSocialStory>)
    requires MostRecentFirst(listed)
    requires forall i | 0 <= i < |listed| :: saved.lastViewed >= listed[i].lastViewed
    ensures SortByLastViewed([saved] + listed) == [saved] + listed
  {
    assert MostRecentFirst([saved] + listed);
    SortSorted([saved] + listed);
  }
}
