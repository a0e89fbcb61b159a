/** The "Capabilities" section: the skills list shown under the selected
    category button. The selection is a string that starts as "All" and is
    replaced wholesale by a button click. */
module Skills {

  datatype Category = Frontend | UIArchitecture | Backend | AI | Testing | Tools

  /** The category as the string the skills data and the buttons use. */
  function CategoryName(c: Category): string {
    match c
    case Frontend => "Frontend"
    case UIArchitecture => "UI Architecture"
    case Backend => "Backend"
    case AI => "AI"
    case Testing => "Testing"
    case Tools => "Tools"
  }

  /** A skill: its name, a proficiency level meant to lie in 0..100, its category. */
  datatype Skill = Skill(name: string, level: int, category: Category)

  /** The category buttons, in order. "Tools" is a category of the data but has
      no button. */
  const CategoryButtons: seq<string> := ["All", "Frontend", "UI Architecture", "Backend", "AI", "Testing"]

  const InitialSelection: string := "All"

  predicate InCategory(s: Skill, selected: string) {
    CategoryName(s.category) == selected
  }

  /** `skills.filter(s => s.category === selected)`: exactly the skills of the
      selected category, each as often as in the input, in input order. */
  function FilterByCategory(skills: seq<Skill>, selected: string): (r: seq<Skill>)
    ensures |r| <= |skills|
    ensures forall i :: 0 <= i < |r| ==> InCategory(r[i], selected)
    ensures forall s :: multiset(r)[s] == if InCategory(s, selected) then multiset(skills)[s] else 0
  {
    if skills == [] then []
    else
      var rest := FilterByCategory(skills[1..], selected);
      assert skills == [skills[0]] + skills[1..];
      if InCategory(skills[0], selected) then [skills[0]] + rest else rest
  }

  /** The list shown for a selection: everything under "All", otherwise the
      skills of that category. */
  function FilteredSkills(skills: seq<Skill>, selected: string): (r: seq<Skill>)
    ensures selected == "All" ==> r == skills
    ensures selected != "All" ==> forall i :: 0 <= i < |r| ==> InCategory(r[i], selected)
    ensures selected != "All" ==>
              forall s :: multiset(r)[s] == if InCategory(s, selected) then multiset(skills)[s] else 0
  {
    if selected == "All" then skills else FilterByCategory(skills, selected)
  }

  /** The initial selection shows the whole list, and no selection shows more
      skills than there are. */
  lemma InitialSelectionShowsAll(skills: seq<Skill>, selected: string)
    ensures FilteredSkills(skills, InitialSelection) == skills
    ensures |FilteredSkills(skills, selected)| <= |skills|
  {
  }

  /** Every skill shown under a category other than "All" is of that category,
      and every skill of that category is shown (as often as it occurs). */
  lemma SelectionSoundAndComplete(skills: seq<Skill>, selected: string)
    requires selected != "All"
    ensures forall i :: 0 <= i < |FilteredSkills(skills, selected)| ==> InCategory(FilteredSkills(skills, selected)[i], selected)
    ensures forall i :: 0 <= i < |skills| && InCategory(skills[i], selected) ==> skills[i] in FilteredSkills(skills, selected)
  {
    var r := FilteredSkills(skills, selected);
    forall i | 0 <= i < |skills| && InCategory(skills[i], selected)
      ensures skills[i] in r
    {
      assert skills[i] in multiset(skills);
      assert multiset(r)[skills[i]] > 0;
    }
  }

  /** Filtering keeps input order: filtering a list made of two parts is
      filtering each part and putting the results one after the other. */
  lemma {:induction false} FilterAppend(a: seq<Skill>, b: seq<Skill>, selected: string)
    ensures FilterByCategory(a + b, selected) == FilterByCategory(a, selected) + FilterByCategory(b, selected)
  {
    if a == [] {
      assert a + b == b;
    } else {
      assert (a + b)[1..] == a[1..] + b;
      FilterAppend(a[1..], b, selected);
    }
  }

  /** A single skill is shown exactly when it is of the selected category, so
      by `FilterAppend` the shown list is the input with the other skills
      left out. */
  lemma FilterSingle(s: Skill, selected: string)
    ensures FilterByCategory([s], selected) == if InCategory(s, selected) then [s] else []
  {
    assert [s][1..] == [];
  }

  /** No button selects "Tools", so a "Tools" skill is only ever shown under "All". */
  lemma ToolsOnlyUnderAll(skills: seq<Skill>, selected: string)
    requires selected in CategoryButtons
    ensures "Tools" !in CategoryButtons
    ensures forall i :: 0 <= i < |FilteredSkills(skills, selected)| && FilteredSkills(skills, selected)[i].category == Tools
              ==> selected == "All"
  {
    var r := FilteredSkills(skills, selected);
    if selected != "All" {
      forall i | 0 <= i < |r|
        ensures r[i].category != Tools
      {
        assert CategoryName(r[i].category) == selected;
      }
    }
  }
}
