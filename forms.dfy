/**
 * What the two social-story forms hand on when submitted: the child profile
 * form for a library scenario (components/ChildProfileForm.tsx) and the
 * custom scenario form (components/CustomScenarioForm.tsx).
 */
module Forms {
  import opened Js
  import opened Types

  /** The art style both forms start from. */
  const GentleWatercolor := "Gentle watercolor illustration with soft colors and friendly characters"

  // ---------------------------------------------------------------------------
  // Shared pieces
  // ---------------------------------------------------------------------------

  /** `s || undefined` */
  function NonEmpty(s: string): (r: Option<string>)
    ensures r.None? <==> s == []
    ensures r.Some? ==> r.value == s
  {
    if s == [] then None else Some(s)
  }

  /** The trimmed pieces of a comma-separated list. */
  function SplitTrim(s: string): (r: seq<string>)
    ensures |Split(s, ',')| == |r|
    ensures forall i | 0 <= i < |r| :: r[i] == Trim(Split(s, ',')[i])
  {
    var pieces := Split(s, ',');
    seq(|pieces|, i requires 0 <= i < |pieces| => Trim(pieces[i]))
  }

  /** `s ? s.split(',').map(x => x.trim()) : undefined` */
  function CommaList(s: string): (r: Option<seq<string>>)
    ensures r.None? <==> s == []
    ensures r.Some? ==> r.value == SplitTrim(s)
  {
    if s == [] then None else Some(SplitTrim(s))
  }

  lemma TrimOfUnspaced(s: string)
    requires forall i | 0 <= i < |s| :: !IsSpace(s[i])
    ensures Trim(s) == s
  {
  }

  /** Every piece of a comma list is trimmed and holds no comma; a list typed
      without spaces is given back piece for piece. */
  lemma CommaListPieces(s: string)
    requires s != []
    ensures forall i | 0 <= i < |CommaList(s).value| ::
      var p := CommaList(s).value[i];
      ',' !in p && (p == [] || (!IsSpace(p[0]) && !IsSpace(p[|p| - 1])))
    ensures (forall i | 0 <= i < |s| :: !IsSpace(s[i])) ==> Join(CommaList(s).value, ",") == s
  {
    var pieces := Split(s, ',');
    var r := CommaList(s).value;
    forall i | 0 <= i < |r| ensures ',' !in r[i] {
      assert r[i] == Trim(pieces[i]);
      assert |r[i]| <= |pieces[i]|;
      TrimInside(pieces[i]);
    }
    if forall i | 0 <= i < |s| :: !IsSpace(s[i]) {
      forall i | 0 <= i < |pieces| ensures r[i] == pieces[i] {
        SplitPiecesUnspaced(s, i);
        TrimOfUnspaced(pieces[i]);
      }
      assert r == pieces;
    }
  }

  /** Trimming only drops characters from the ends. */
  lemma TrimInside(s: string)
    ensures forall c | c in Trim(s) :: c in s
  {
    var a := TrimStart(s);
    var b := TrimEnd(a);
    assert forall i | 0 <= i < |b| :: b[i] == a[i];
    assert forall i | 0 <= i < |a| :: a[i] == s[|s| - |a| + i];
  }

  /** A piece of a split holds only characters of the split text. */
  lemma {:induction false} SplitPiecesFrom(s: string, sep: char, k: nat, c: char)
    requires k < |Split(s, sep)| && c in Split(s, sep)[k]
    ensures c in s
    decreases |s|
  {
    if s == [] {
    } else if s[0] == sep {
      SplitPiecesFrom(s[1..], sep, k - 1, c);
    } else {
      var rest := Split(s[1..], sep);
      if k == 0 {
        if c != s[0] {
          assert c in rest[0];
          SplitPiecesFrom(s[1..], sep, 0, c);
        }
      } else {
        SplitPiecesFrom(s[1..], sep, k, c);
      }
    }
  }

  lemma SplitPiecesUnspaced(s: string, k: nat)
    requires k < |Split(s, ',')|
    requires forall i | 0 <= i < |s| :: !IsSpace(s[i])
    ensures forall i | 0 <= i < |Split(s, ',')[k]| :: !IsSpace(Split(s, ',')[k][i])
  {
    var p := Split(s, ',')[k];
    forall i | 0 <= i < |p| ensures !IsSpace(p[i]) {
      SplitPiecesFrom(s, ',', k, p[i]);
    }
  }

  /** `A ${childAge}-year-old child` */
  function AgeLine(age: int): string {
    "A " + IntToString(age) + "-year-old child"
  }

  // ---------------------------------------------------------------------------
  // Child profile form
  // ---------------------------------------------------------------------------

  /** `parts.filter(Boolean)`: the non-empty strings, in order. */
  function Truthy(parts: seq<string>): (r: seq<string>)
    ensures |r| <= |parts|
    ensures forall p :: p in r <==> p in parts && p != []
  {
    if parts == [] then []
    else if parts[0] == [] then Truthy(parts[1..])
    else [parts[0]] + Truthy(parts[1..])
  }

  /** The filter keeps the order: filtering two stretches of parts gives the
      first stretch's survivors before the second's. */
  lemma {:induction false} TruthyAppend(a: seq<string>, b: seq<string>)
    ensures Truthy(a + b) == Truthy(a) + Truthy(b)
    decreases |a|
  {
    if a == [] {
      assert a + b == b;
    } else {
      assert (a + b)[0] == a[0];
      assert (a + b)[1..] == a[1..] + b;
      TruthyAppend(a[1..], b);
    }
  }

  /** `field && text`: the text when the field is filled, `""` otherwise. */
  function IfFilled(field: string, text: string): (r: string)
    ensures field == [] ==> r == []
    ensures field != [] ==> r == text
  {
    if field == [] then [] else text
  }

  /** The appearance description the form builds from its fields. */
  function ChildAppearance(age: int, hair: string, eyes: string, skin: string, features: string): (r: string)
  {
    Join(Truthy([
      AgeLine(age),
      IfFilled(hair, "with " + hair + " hair"),
      IfFilled(eyes, "and " + eyes + " eyes"),
      IfFilled(skin, "with " + skin + " skin"),
      features]), ", ")
  }

  /** The description always opens with the child's age, and it mentions
      each filled-in feature: the age line alone when nothing else is given. */
  lemma ChildAppearanceParts(age: int, hair: string, eyes: string, skin: string, features: string)
    ensures AgeLine(age) <= ChildAppearance(age, hair, eyes, skin, features)
    ensures hair == eyes == skin == features == [] ==> ChildAppearance(age, hair, eyes, skin, features) == AgeLine(age)
    ensures hair != [] ==> Includes(ChildAppearance(age, hair, eyes, skin, features), "with " + hair + " hair")
    ensures eyes != [] ==> Includes(ChildAppearance(age, hair, eyes, skin, features), "and " + eyes + " eyes")
    ensures skin != [] ==> Includes(ChildAppearance(age, hair, eyes, skin, features), "with " + skin + " skin")
    ensures features != [] ==> Includes(ChildAppearance(age, hair, eyes, skin, features), features)
  {
    var parts := [AgeLine(age), IfFilled(hair, "with " + hair + " hair"),
      IfFilled(eyes, "and " + eyes + " eyes"), IfFilled(skin, "with " + skin + " skin"), features];
    var kept := Truthy(parts);
    assert AgeLine(age) != [];
    assert kept == [AgeLine(age)] + Truthy(parts[1..]);
    JoinStartsWithFirst(kept, ", ");
    if hair == eyes == skin == features == [] {
      assert parts[1..] == ["", "", "", ""];
      assert Truthy(parts[1..][3..]) == [];
      assert Truthy(parts[1..][2..]) == [];
      assert Truthy(parts[1..][1..]) == [];
    }
    forall p | p in parts && p != [] ensures Includes(Join(kept, ", "), p) {
      assert p in kept;
      var k :| 0 <= k < |kept| && kept[k] == p;
      JoinIncludesParts(kept, ", ", k);
    }
    assert parts[1] == IfFilled(hair, "with " + hair + " hair");
    assert hair != [] ==> parts[1] == "with " + hair + " hair";
  }

  /** The description is the age line followed by exactly the filled-in
      parts, in the form's order, separated by ", ": an empty field leaves
      no trace, not even its separator. */
  lemma ChildAppearanceJoin(age: int, hair: string, eyes: string, skin: string, features: string)
    ensures ChildAppearance(age, hair, eyes, skin, features) ==
      Join([AgeLine(age)]
           + (if hair != [] then ["with " + hair + " hair"] else [])
           + (if eyes != [] then ["and " + eyes + " eyes"] else [])
           + (if skin != [] then ["with " + skin + " skin"] else [])
           + (if features != [] then [features] else []), ", ")
  {
    var p0, p1, p2, p3, p4 := AgeLine(age), IfFilled(hair, "with " + hair + " hair"),
      IfFilled(eyes, "and " + eyes + " eyes"), IfFilled(skin, "with " + skin + " skin"), features;
    assert [p0, p1, p2, p3, p4] == [p0] + [p1] + [p2] + [p3] + [p4];
    TruthyAppend([p0] + [p1] + [p2] + [p3], [p4]);
    TruthyAppend([p0] + [p1] + [p2], [p3]);
    TruthyAppend([p0] + [p1], [p2]);
    TruthyAppend([p0], [p1]);
    assert AgeLine(age) != [];
    assert Truthy([p0]) == [p0];
    assert Truthy([p1]) == if hair != [] then ["with " + hair + " hair"] else [];
    assert Truthy([p2]) == if eyes != [] then ["and " + eyes + " eyes"] else [];
    assert Truthy([p3]) == if skin != [] then ["with " + skin + " skin"] else [];
    assert Truthy([p4]) == if features != [] then [features] else [];
  }

  lemma JoinStartsWithFirst(parts: seq<string>, sep: string)
    requires parts != []
    ensures parts[0] <= Join(parts, sep)
  {
  }

  /** addSpecificPerson: the two answers to `prompt()` (`None` when cancelled)
      add a person only when both are given. */
  function AddSpecificPerson(people: seq<SpecificPerson>, role: Option<string>, name: Option<string>): (r: seq<SpecificPerson>)
    ensures Present(role) && Present(name) ==> r == people + [SpecificPerson(role.value, name.value)]
    ensures !(Present(role) && Present(name)) ==> r == people
  {
    if Present(role) && Present(name) then people + [SpecificPerson(role.value, name.value)] else people
  }

  /** `people.filter((_, i) => i !== index)` */
  function DropIndex(people: seq<SpecificPerson>, index: int): seq<SpecificPerson>
    decreases |people|
  {
    if people == [] then []
    else
      var n := |people| - 1;
      DropIndex(people[..n], index) + if n == index then [] else [people[n]]
  }

  /** removePerson: exactly the person at `index` goes, the rest keep their
      order; an index outside the list removes nobody. */
  function RemovePerson(people: seq<SpecificPerson>, index: int): (r: seq<SpecificPerson>)
    ensures 0 <= index < |people| ==> r == people[..index] + people[index + 1..]
    ensures !(0 <= index < |people|) ==> r == people
  {
    if 0 <= index < |people| then
      DropIndexInside(people, index);
      DropIndex(people, index)
    else
      DropIndexOutside(people, index);
      DropIndex(people, index)
  }

  lemma {:induction false} DropIndexOutside(people: seq<SpecificPerson>, index: int)
    requires !(0 <= index < |people|)
    ensures DropIndex(people, index) == people
    decreases |people|
  {
    if people != [] {
      var n := |people| - 1;
      DropIndexOutside(people[..n], index);
      assert people[..n] + [people[n]] == people;
    }
  }

  lemma {:induction false} DropIndexInside(people: seq<SpecificPerson>, index: int)
    requires 0 <= index < |people|
    ensures DropIndex(people, index) == people[..index] + people[index + 1..]
    decreases |people|
  {
    var n := |people| - 1;
    if n == index {
      DropIndexOutside(people[..n], index);
    } else {
      DropIndexInside(people[..n], index);
      assert people[..n][..index] == people[..index];
      assert people[..n][index + 1..] + [people[n]] == people[index + 1..];
    }
  }

  /** The child profile form's submission. */
  function ProfileConfig(
    template: SocialStoryTemplate, childName: string, childAge: int,
    hair: string, skin: string, eyes: string, features: string, artStyle: string,
    location: string, people: seq<SpecificPerson>, concerns: string): (r: SocialStoryConfig)
    ensures r.templateId == Some(template.id) && r.childName == childName
    ensures r.childAge == Some(childAge) && r.artStyle == artStyle
    ensures r.childAppearance == ChildAppearance(childAge, hair, eyes, skin, features)
    ensures r.customizations.Some?
    ensures r.customizations.value.specificLocation == NonEmpty(location)
    ensures r.customizations.value.specificPeople.None? <==> people == []
    ensures r.customizations.value.specificPeople.Some? ==> r.customizations.value.specificPeople.value == people
    ensures r.customizations.value.additionalConcerns == CommaList(concerns)
  {
    SocialStoryConfig(
      Some(template.id), childName, ChildAppearance(childAge, hair, eyes, skin, features), Some(childAge),
      Some(Customizations(NonEmpty(location), if |people| > 0 then Some(people) else None, CommaList(concerns))),
      artStyle)
  }

  // ---------------------------------------------------------------------------
  // Custom scenario form
  // ---------------------------------------------------------------------------

  /** The scenario half of the custom form's submission. */
  function CustomScenario(
    title: string, category: string, description: string, estimatedScenes: int,
    keyPeople: string, commonConcerns: string, specificDetails: string): (r: CustomScenarioInput)
    ensures r.title == title && r.category == category && r.description == description
    ensures r.estimatedScenes == estimatedScenes
    ensures r.keyPeople == CommaList(keyPeople) && r.commonConcerns == CommaList(commonConcerns)
    ensures r.specificDetails == NonEmpty(specificDetails)
  {
    CustomScenarioInput(title, category, description, estimatedScenes,
      CommaList(keyPeople), CommaList(commonConcerns), NonEmpty(specificDetails))
  }

  /** The child half: a blank appearance becomes the age line. No template and
      no customisations go with it. */
  function CustomChild(childName: string, childAge: int, childAppearance: string): (r: SocialStoryConfig)
    ensures r.templateId.None? && r.customizations.None?
    ensures r.childName == childName && r.childAge == Some(childAge)
    ensures r.childAppearance != []
    ensures childAppearance != [] ==> r.childAppearance == childAppearance
    ensures childAppearance == [] ==> r.childAppearance == AgeLine(childAge)
    ensures r.artStyle == GentleWatercolor
  {
    SocialStoryConfig(None, childName, if childAppearance != [] then childAppearance else AgeLine(childAge),
      Some(childAge), None, GentleWatercolor)
  }
}
