/**
 * The library of social-story scenarios (src/data/templates.ts) and its three
 * lookups: by id, by category and by the child's age.
 */
module Templates {
  import opened Js
  import opened Types

  // The entries of SOCIAL_STORY_TEMPLATES, one constant each.

  const DentistVisit := SocialStoryTemplate("dentist-visit", "Going to the Dentist", Medical,
    "A visit to the dentist for a checkup and cleaning",
    "🦷", 7,
    ["dentist", "dental hygienist", "receptionist"],
    ["pain", "loud noises", "unfamiliar tools", "bright lights"],
    3, 10)

  const DoctorCheckup := SocialStoryTemplate("doctor-checkup", "Doctor Checkup", Medical,
    "A routine visit to the doctor for a health checkup",
    "🏥", 6,
    ["doctor", "nurse", "receptionist"],
    ["shots", "stethoscope", "being examined", "waiting"],
    3, 10)

  const GettingShot := SocialStoryTemplate("getting-shot", "Getting a Vaccine", Medical,
    "Getting a vaccination or shot at the doctor's office",
    "💉", 5,
    ["nurse", "doctor"],
    ["needle", "pain", "crying"],
    4, 10)

  const FirstDaySchool := SocialStoryTemplate("first-day-school", "First Day of School", School,
    "Starting a new school year or attending school for the first time",
    "🏫", 8,
    ["teacher", "principal", "classmates"],
    ["separation from parents", "new people", "not knowing what to do", "getting lost"],
    4, 8)

  const SchoolBus := SocialStoryTemplate("school-bus", "Riding the School Bus", School,
    "Taking the school bus for the first time",
    "🚌", 6,
    ["bus driver", "bus monitor"],
    ["loud noises", "bumpy ride", "finding a seat", "missing the stop"],
    5, 10)

  const FireDrill := SocialStoryTemplate("fire-drill", "Fire Drill at School", School,
    "Participating in a fire drill at school",
    "🚨", 5,
    ["teacher", "firefighter"],
    ["loud alarm", "rushing", "leaving belongings", "standing outside"],
    5, 10)

  const Haircut := SocialStoryTemplate("haircut", "Getting a Haircut", DailyRoutine,
    "Visiting a hair salon or barber for a haircut",
    "💇", 6,
    ["hairstylist", "barber"],
    ["scissors", "buzzing clippers", "sitting still", "cape around neck", "hair in face"],
    3, 10)

  const GroceryStore := SocialStoryTemplate("grocery-store", "Going to the Grocery Store", DailyRoutine,
    "Shopping at the grocery store with a parent",
    "🛒", 5,
    ["cashier", "store clerk"],
    ["crowds", "loud noises", "waiting in line", "not getting treats"],
    3, 8)

  const Restaurant := SocialStoryTemplate("restaurant", "Eating at a Restaurant", DailyRoutine,
    "Going out to eat at a restaurant",
    "🍽️", 6,
    ["server", "host"],
    ["waiting for food", "unfamiliar foods", "sitting still", "loud environment"],
    3, 10)

  const Airplane := SocialStoryTemplate("airplane", "Flying on an Airplane", Travel,
    "Taking a flight on an airplane",
    "✈️", 8,
    ["flight attendant", "pilot", "security officer"],
    ["takeoff", "landing", "loud engine", "ear pressure", "turbulence", "security screening"],
    4, 12)

  const HotelStay := SocialStoryTemplate("hotel-stay", "Staying at a Hotel", Travel,
    "Spending the night at a hotel",
    "🏨", 6,
    ["hotel clerk", "bellhop"],
    ["new bed", "unfamiliar room", "strange noises", "elevators"],
    4, 10)

  const CarRide := SocialStoryTemplate("car-ride", "Long Car Ride", Travel,
    "Taking a long car trip",
    "🚗", 5,
    [],
    ["boredom", "car sickness", "needing bathroom", "being restrained in car seat"],
    3, 10)

  const BirthdayParty := SocialStoryTemplate("birthday-party", "Going to a Birthday Party", Social,
    "Attending a friend's birthday party",
    "🎂", 7,
    ["birthday child", "other kids", "parents"],
    ["loud singing", "games", "sharing", "cake mess", "leaving without parent"],
    3, 10)

  const Playdate := SocialStoryTemplate("playdate", "Having a Playdate", Social,
    "Going to a friend's house to play",
    "🎮", 6,
    ["friend", "friend's parent"],
    ["new house", "sharing toys", "different rules", "parent leaving"],
    3, 8)

  const LibraryVisit := SocialStoryTemplate("library", "Visiting the Library", DailyRoutine,
    "Going to the public library",
    "📚", 5,
    ["librarian"],
    ["being quiet", "getting lost", "choosing books", "checkout process"],
    4, 10)

  /** SOCIAL_STORY_TEMPLATES, in table order. */
  const Library: seq<SocialStoryTemplate> := [DentistVisit, DoctorCheckup, GettingShot, FirstDaySchool, SchoolBus, FireDrill, Haircut, GroceryStore, Restaurant, Airplane, HotelStay, CarRide, BirthdayParty, Playdate, LibraryVisit]

  /** `find(t => t.id === id)` over any list of templates. */
  function FindById(ts: seq<SocialStoryTemplate>, id: string): (r: Option<SocialStoryTemplate>)
    ensures r.Some? ==> r.value in ts && r.value.id == id
    ensures r.None? <==> forall i | 0 <= i < |ts| :: ts[i].id != id
    ensures r.Some? ==> exists k | 0 <= k < |ts| :: ts[k] == r.value && forall j | 0 <= j < k :: ts[j].id != id
  {
    if ts == [] then None
    else if ts[0].id == id then Some(ts[0])
    else
      var r := FindById(ts[1..], id);
      assert r.Some? ==> exists k | 0 <= k < |ts[1..]| :: ts[1..][k] == r.value && forall j | 0 <= j < k :: ts[1..][j].id != id;
      if r.Some? then
        var k :| 0 <= k < |ts[1..]| && ts[1..][k] == r.value && forall j | 0 <= j < k :: ts[1..][j].id != id;
        assert ts[k + 1] == r.value && forall j | 0 <= j < k + 1 :: ts[j].id != id;
        r
      else r
  }

  /** getTemplateById: the first template with that id, or `undefined`. */
  function GetTemplateById(id: string): Option<SocialStoryTemplate> {
    FindById(Library, id)
  }

  /** `filter(t => t.category === category)` over any list of templates. */
  function InCategory(ts: seq<SocialStoryTemplate>, category: Category): (r: seq<SocialStoryTemplate>)
    ensures |r| <= |ts|
    ensures forall t :: t in r <==> t in ts && t.category == category
  {
    if ts == [] then []
    else if ts[0].category == category then [ts[0]] + InCategory(ts[1..], category)
    else InCategory(ts[1..], category)
  }

  /** getTemplatesByCategory: exactly the templates of that category. */
  function GetTemplatesByCategory(category: Category): seq<SocialStoryTemplate> {
    InCategory(Library, category)
  }

  predicate SuitsAge(t: SocialStoryTemplate, age: int) {
    age >= t.ageLow && age <= t.ageHigh
  }

  /** `filter(t => age >= t.ageRange[0] && age <= t.ageRange[1])` over any list. */
  function ForAge(ts: seq<SocialStoryTemplate>, age: int): (r: seq<SocialStoryTemplate>)
    ensures |r| <= |ts|
    ensures forall t :: t in r <==> t in ts && t.ageLow <= age <= t.ageHigh
  {
    if ts == [] then []
    else if SuitsAge(ts[0], age) then [ts[0]] + ForAge(ts[1..], age)
    else ForAge(ts[1..], age)
  }

  /** getTemplatesForAge: the templates whose age range holds `age`, both bounds included. */
  function GetTemplatesForAge(age: int): seq<SocialStoryTemplate> {
    ForAge(Library, age)
  }

  /** Filtering keeps the table's order: the filter of two consecutive parts
      is the filter of the first followed by that of the second. */
  lemma {:induction false} InCategoryAppend(a: seq<SocialStoryTemplate>, b: seq<SocialStoryTemplate>, category: Category)
    ensures InCategory(a + b, category) == InCategory(a, category) + InCategory(b, category)
    decreases |a|
  {
    if a == [] {
      assert a + b == b;
    } else {
      assert (a + b)[0] == a[0];
      assert (a + b)[1..] == a[1..] + b;
      InCategoryAppend(a[1..], b, category);
    }
  }

  lemma {:induction false} ForAgeAppend(a: seq<SocialStoryTemplate>, b: seq<SocialStoryTemplate>, age: int)
    ensures ForAge(a + b, age) == ForAge(a, age) + ForAge(b, age)
    decreases |a|
  {
    if a == [] {
      assert a + b == b;
    } else {
      assert (a + b)[0] == a[0];
      assert (a + b)[1..] == a[1..] + b;
      ForAgeAppend(a[1..], b, age);
    }
  }

  /** The five category filters split any list: every template is counted in
      exactly one of them. */
  lemma {:induction false} CategoriesPartition(ts: seq<SocialStoryTemplate>)
    ensures |InCategory(ts, Medical)| + |InCategory(ts, School)| + |InCategory(ts, Social)|
          + |InCategory(ts, DailyRoutine)| + |InCategory(ts, Travel)| == |ts|
    decreases |ts|
  {
    if ts != [] {
      CategoriesPartition(ts[1..]);
    }
  }

  /** A filter that no element passes is empty. */
  lemma NothingInCategory(ts: seq<SocialStoryTemplate>, c: Category)
    requires forall i | 0 <= i < |ts| :: ts[i].category != c
    ensures InCategory(ts, c) == []
  {
  }

  /** The table itself is partitioned by the category filters. */
  lemma LibraryPartition()
    ensures |GetTemplatesByCategory(Medical)| + |GetTemplatesByCategory(School)|
          + |GetTemplatesByCategory(Social)| + |GetTemplatesByCategory(DailyRoutine)|
          + |GetTemplatesByCategory(Travel)| == |Library|
  {
    CategoriesPartition(Library);
  }

  /** Of a fifteen-entry table whose social entries are the 13th and 14th,
      the social filter keeps those two, in order. */
  lemma SocialOfFifteen(ts: seq<SocialStoryTemplate>)
    requires |ts| == 15
    requires forall i | 0 <= i < 12 :: ts[i].category != Social
    requires ts[12].category == Social && ts[13].category == Social && ts[14].category != Social
    ensures InCategory(ts, Social) == [ts[12], ts[13]]
  {
    var head, tail := ts[..12], ts[12..];
    assert forall i | 0 <= i < 12 :: head[i].category != Social;
    NothingInCategory(head, Social);
    assert ts == head + tail;
    InCategoryAppend(head, tail, Social);
    LastThreeSocial(tail);
  }

  /** Of three templates whose first two are social, the social filter keeps
      those two. */
  lemma LastThreeSocial(ts: seq<SocialStoryTemplate>)
    requires |ts| == 3 && ts[0].category == Social && ts[1].category == Social && ts[2].category != Social
    ensures InCategory(ts, Social) == [ts[0], ts[1]]
  {
    assert ts[1..][1..] == [ts[2]];
    assert InCategory([ts[2]], Social) == [] by {
      assert [ts[2]][1..] == [];
    }
  }

  /** Where the social entries sit in the table: the birthday party and the
      playdate, followed by the library visit, a daily routine. */
  lemma LibraryCategories()
    ensures |Library| == 15
    ensures forall i | 0 <= i < 12 :: Library[i].category != Social
    ensures Library[12].category == Social && Library[13].category == Social
    ensures Library[14].category == DailyRoutine
    ensures Library[12].id == "birthday-party" && Library[13].id == "playdate"
    ensures Library[14].id == "library"
  {
  }

  /** Only the birthday party and the playdate are social events, in table order. */
  lemma SocialTemplates()
    ensures GetTemplatesByCategory(Social) == [Library[12], Library[13]]
  {
    LibraryCategories();
    SocialOfFifteen(Library);
  }
}
