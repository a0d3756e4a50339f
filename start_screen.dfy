/**
 * The start screen of the branching adventure (components/StartScreen.tsx):
 * the starting sentence and its voice transcript, the character collection
 * with its search box, and the selection of up to three collected characters
 * that an adventure can start with.
 */
module StartScreen {
  import opened Js
  import opened Types

  /** The art style every adventure started here asks for. */
  const AdventureArtStyle := "Ghibli-inspired watercolor but with clean outlines"

  /** The most characters that can be selected at once. */
  const MaxSelected := 3

  // ---------------------------------------------------------------------------
  // Selection
  // ---------------------------------------------------------------------------

  predicate Distinct(ids: seq<string>) {
    forall i, j | 0 <= i < j < |ids| :: ids[i] != ids[j]
  }

  /** `ids.filter(item => item !== id)` */
  function Without(ids: seq<string>, id: string): (r: seq<string>)
    ensures |r| <= |ids|
    ensures forall x :: x in r <==> x in ids && x != id
    ensures id !in ids ==> r == ids
  {
    if ids == [] then []
    else if ids[0] == id then Without(ids[1..], id)
    else [ids[0]] + Without(ids[1..], id)
  }

  /** toggleSelection: deselects a selected id; selects an unselected one at
      the end, unless three are already selected. */
  function ToggleSelection(selected: seq<string>, id: string): (r: seq<string>)
    ensures id in selected ==> id !in r && forall x | x != id :: x in r <==> x in selected
    ensures id !in selected && |selected| < MaxSelected ==> r == selected + [id]
    ensures id !in selected && |selected| >= MaxSelected ==> r == selected
  {
    if id in selected then Without(selected, id)
    else if |selected| >= MaxSelected then selected
    else selected + [id]
  }

  lemma {:induction false} WithoutKeepsDistinct(ids: seq<string>, id: string)
    requires Distinct(ids)
    ensures Distinct(Without(ids, id))
    decreases |ids|
  {
    if ids != [] {
      WithoutKeepsDistinct(ids[1..], id);
      if ids[0] != id {
        assert ids[0] !in Without(ids[1..], id);
      }
    }
  }

  /** However the user clicks, the selection holds at most three ids and
      none of them twice. */
  lemma ToggleKeepsSelectionValid(selected: seq<string>, id: string)
    requires Distinct(selected) && |selected| <= MaxSelected
    ensures Distinct(ToggleSelection(selected, id)) && |ToggleSelection(selected, id)| <= MaxSelected
  {
    if id in selected {
      WithoutKeepsDistinct(selected, id);
    }
  }

  /** Clicking an id that could be selected twice leaves the selection as it was. */
  lemma ToggleTwice(selected: seq<string>, id: string)
    requires id !in selected && |selected| < MaxSelected
    ensures ToggleSelection(ToggleSelection(selected, id), id) == selected
  {
    WithoutAppended(selected, id);
  }

  lemma {:induction false} WithoutAppended(ids: seq<string>, id: string)
    requires id !in ids
    ensures Without(ids + [id], id) == ids
    decreases |ids|
  {
    if ids == [] {
      assert ids + [id] == [id];
    } else {
      assert (ids + [id])[1..] == ids[1..] + [id];
      WithoutAppended(ids[1..], id);
    }
  }

  // ---------------------------------------------------------------------------
  // Starting with the selection
  // ---------------------------------------------------------------------------

  /** `savedCharacters.filter(c => selectedIds.includes(c.id)).map(c => c.name)` */
  function SelectedNames(saved: seq<Character>, selected: seq<string>): (r: seq<string>)
    ensures |r| <= |saved|
    ensures r == [] <==> forall i | 0 <= i < |saved| :: saved[i].id !in selected
    ensures forall n :: n in r ==> exists c | c in saved :: c.id in selected && c.name == n
    ensures forall c | c in saved && c.id in selected :: c.name in r
  {
    if saved == [] then []
    else if saved[0].id in selected then [saved[0].name] + SelectedNames(saved[1..], selected)
    else SelectedNames(saved[1..], selected)
  }

  /** The names keep the collection's order: selecting from two stretches of
      the collection lists the first stretch's names before the second's. */
  lemma {:induction false} SelectedNamesAppend(a: seq<Character>, b: seq<Character>, selected: seq<string>)
    ensures SelectedNames(a + b, selected) == SelectedNames(a, selected) + SelectedNames(b, selected)
    decreases |a|
  {
    if a == [] {
      assert a + b == b;
    } else {
      assert (a + b)[0] == a[0];
      assert (a + b)[1..] == a[1..] + b;
      SelectedNamesAppend(a[1..], b, selected);
    }
  }

  const SoloEnding := " went on a magical adventure to find a secret treasure."
  const PairEnding := " teamed up to solve a mysterious puzzle."
  const GroupEnding := " joined forces for an epic journey."

  /** The adventure sentence for the chosen names, in collection order; none
      when nobody is selected. Each group size has its own sentence, and a
      group of three or more lists all but the last name with commas. */
  function SelectionPrompt(names: seq<string>): (r: Option<string>)
    ensures r.None? <==> names == []
    ensures |names| == 1 ==> r.value == names[0] + SoloEnding
    ensures |names| == 2 ==> r.value == names[0] + " and " + names[1] + PairEnding
    ensures |names| >= 3 ==> SuffixOf(", and " + names[|names| - 1] + GroupEnding, r.value)
    ensures |names| >= 3 ==>
      r.value == Join(names[..|names| - 1], ", ") + ", and " + names[|names| - 1] + GroupEnding
  {
    if names == [] then None
    else if |names| == 1 then Some(names[0] + SoloEnding)
    else if |names| == 2 then Some(names[0] + " and " + names[1] + PairEnding)
    else
      var last := names[|names| - 1];
      var rest := names[..|names| - 1];
      var r := Join(rest, ", ") + (", and " + last + GroupEnding);
      assert r[|r| - |", and " + last + GroupEnding|..] == ", and " + last + GroupEnding;
      Some(r)
  }

  lemma GroupPromptNamesEveryone(names: seq<string>, k: nat)
    requires |names| >= 3 && k < |names|
    ensures Includes(SelectionPrompt(names).value, names[k])
  {
    var n := |names|;
    var rest := names[..n - 1];
    var r := SelectionPrompt(names).value;
    assert r == Join(rest, ", ") + (", and " + names[n - 1] + GroupEnding);
    if k < n - 1 {
      assert rest[k] == names[k];
      JoinIncludesParts(rest, ", ", k);
      IncludesPrefix(Join(rest, ", "), ", and " + names[n - 1] + GroupEnding, names[k]);
    } else {
      assert r == Join(rest, ", ") + ", and " + names[n - 1] + GroupEnding;
      IncludesMiddle(Join(rest, ", ") + ", and ", names[n - 1], GroupEnding);
    }
  }

  /** The sentence names every selected character. */
  lemma SelectionPromptNamesEveryone(names: seq<string>, k: nat)
    requires k < |names|
    ensures Includes(SelectionPrompt(names).value, names[k])
  {
    var n := |names|;
    if n == 1 {
      IncludesFirst(names[0], SoloEnding, "", "");
    } else if n == 2 {
      if k == 0 {
        IncludesFirst(names[0], " and ", names[1], PairEnding);
      } else {
        IncludesMiddle(names[0] + " and ", names[1], PairEnding);
      }
    } else {
      GroupPromptNamesEveryone(names, k);
    }
  }

  /** handleStartWithSelection: the adventure it starts, if any. The selected ids
      are passed on as they stand, so the story starts with those characters. */
  function StartWithSelection(saved: seq<Character>, selected: seq<string>): (r: Option<StoryConfig>)
    ensures r.None? <==> forall i | 0 <= i < |saved| :: saved[i].id !in selected
    ensures r.Some? ==>
      && r.value.artStyle == AdventureArtStyle
      && r.value.selectedCharacterIds == Some(selected)
      && Some(r.value.startingSentence) == SelectionPrompt(SelectedNames(saved, selected))
  {
    match SelectionPrompt(SelectedNames(saved, selected))
    case None => None
    case Some(prompt) => Some(StoryConfig(prompt, AdventureArtStyle, Some(selected)))
  }

  /** The selection once the start button has been pressed: cleared when an
      adventure started, kept otherwise. */
  function SelectionAfterStart(saved: seq<Character>, selected: seq<string>): (r: seq<string>)
    ensures r == [] || r == selected
    ensures StartWithSelection(saved, selected).Some? ==> r == []
  {
    if StartWithSelection(saved, selected).Some? then [] else selected
  }

  // ---------------------------------------------------------------------------
  // The sentence form and the collection search
  // ---------------------------------------------------------------------------

  /** handleSubmit: the adventure starts with the sentence exactly as typed, but
      only when it is not blank. */
  function Submit(sentence: string): (r: Option<StoryConfig>)
    ensures r.Some? <==> !IsBlank(sentence)
    ensures r.Some? ==> r.value == StoryConfig(sentence, AdventureArtStyle, None)
  {
    if Trim(sentence) != [] then Some(StoryConfig(sentence, AdventureArtStyle, None)) else None
  }


  /** A voice transcript ends the text. Before it stands the typed text,
      trimmed, and a single space; nothing when the typed text was blank. */
  function AppendTranscript(previous: string, transcript: string): (r: string)
    ensures SuffixOf(transcript, r)
    ensures IsBlank(previous) ==> r == transcript
    ensures !IsBlank(previous) ==> r[..|r| - |transcript|] == Trim(previous) + " "
  {
    var trimmed := Trim(previous);
    if trimmed != [] then trimmed + " " + transcript else transcript
  }

  /** The collection entries whose name or description contains the query,
      ignoring case, in collection order. */
  function FilteredCharacters(saved: seq<Character>, query: string): (r: seq<Character>)
    ensures |r| <= |saved|
    ensures forall c :: c in r <==> (c in saved &&
      (Includes(ToLower(c.name), ToLower(query)) || Includes(ToLower(c.description), ToLower(query))))
  {
    if saved == [] then []
    else
      var c := saved[0];
      var rest := FilteredCharacters(saved[1..], query);
      if Includes(ToLower(c.name), ToLower(query)) || Includes(ToLower(c.description), ToLower(query))
      then [c] + rest else rest
  }

  /** An empty search shows the whole collection. */
  lemma {:induction false} EmptyQueryKeepsAll(saved: seq<Character>)
    ensures FilteredCharacters(saved, "") == saved
    decreases |saved|
  {
    if saved != [] {
      IncludesTrivial(ToLower(saved[0].name));
      EmptyQueryKeepsAll(saved[1..]);
    }
  }
}
