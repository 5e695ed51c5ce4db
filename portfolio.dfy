/**
 * The portfolio page's category filter (ai-chatbot-services/src/pages/PortfolioPage.tsx):
 * a fixed table of projects, a fixed list of category buttons, and the
 * projects shown for the selected category. The image URL, result bullets
 * and technology tags of each project are display-only and not modelled.
 */
module Portfolio {

  datatype Project = Project(id: nat, title: string, category: string, client: string, description: string)

  datatype Category = Category(id: string, name: string)

  const AllCategory := "all"

  /** The page opens on 'all'. */
  const InitialCategory := AllCategory

  const Projects: seq<Project> := [
    Project(1, "E-Commerce Support Bot", "retail", "FashionHub", "AI chatbot handling 10,000+ customer queries daily"),
    Project(2, "Healthcare Assistant", "healthcare", "MedCare Plus", "Medical appointment scheduling and symptom checker bot"),
    Project(3, "Banking Virtual Assistant", "finance", "SecureBank", "Secure banking chatbot for account management"),
    Project(4, "Education Tutor Bot", "education", "LearnSmart Academy", "Personalized learning assistant for students"),
    Project(5, "Real Estate Assistant", "realestate", "PropertyPro", "Property search and virtual tour scheduling bot"),
    Project(6, "HR Recruitment Bot", "corporate", "TalentFlow", "Automated candidate screening and interview scheduling")
  ]

  const Categories: seq<Category> := [
    Category("all", "All Projects"),
    Category("retail", "Retail"),
    Category("healthcare", "Healthcare"),
    Category("finance", "Finance"),
    Category("education", "Education"),
    Category("realestate", "Real Estate"),
    Category("corporate", "Corporate")
  ]

  /** `projects.filter(p => p.category === selected)`. */
  function FilterByCategory(projects: seq<Project>, category: string): seq<Project> {
    if projects == [] then []
    else if projects[0].category == category then [projects[0]] + FilterByCategory(projects[1..], category)
    else FilterByCategory(projects[1..], category)
  }

  /** `filteredProjects`. */
  function FilteredProjects(selected: string): seq<Project> {
    if selected == AllCategory then Projects else FilterByCategory(Projects, selected)
  }

  /** `a` is `b` with some elements left out, the rest in their order. */
  predicate IsSubsequence<T(==)>(a: seq<T>, b: seq<T>)
    decreases |b|
  {
    if a == [] then true
    else if b == [] then false
    else if a[0] == b[0] then IsSubsequence(a[1..], b[1..])
    else IsSubsequence(a, b[1..])
  }

  /** The filter keeps projects in their original order and invents none. */
  lemma {:induction false} FilterIsSubsequence(projects: seq<Project>, category: string)
    ensures IsSubsequence(FilterByCategory(projects, category), projects)
  {
    if projects != [] {
      FilterIsSubsequence(projects[1..], category);
      var rest := FilterByCategory(projects[1..], category);
      if projects[0].category == category {
        assert ([projects[0]] + rest)[1..] == rest;
      } else if rest != [] {
        FilterMembership(projects[1..], category);
        assert rest[0] in rest;
      }
    }
  }

  /** Exactly the projects of that category are shown. */
  lemma {:induction false} FilterMembership(projects: seq<Project>, category: string)
    ensures forall p :: p in FilterByCategory(projects, category) <==> p in projects && p.category == category
  {
    if projects != [] {
      FilterMembership(projects[1..], category);
      assert projects == [projects[0]] + projects[1..];
    }
  }

  /** Filtering distributes over concatenation, so it is decided element by element. */
  lemma {:induction false} FilterAppend(a: seq<Project>, b: seq<Project>, category: string)
    ensures FilterByCategory(a + b, category) == FilterByCategory(a, category) + FilterByCategory(b, category)
  {
    if a == [] {
      assert a + b == b;
    } else {
      assert (a + b)[1..] == a[1..] + b;
      FilterAppend(a[1..], b, category);
    }
  }

  /** 'all' shows the whole table in its order. */
  lemma AllShowsEverything()
    ensures FilteredProjects(InitialCategory) == Projects
  {
  }

  /** Any other choice shows exactly that category's projects, in table order. */
  lemma SelectedShowsItsCategory(selected: string)
    requires selected != AllCategory
    ensures IsSubsequence(FilteredProjects(selected), Projects)
    ensures forall p :: p in FilteredProjects(selected) <==> p in Projects && p.category == selected
  {
    FilterIsSubsequence(Projects, selected);
    FilterMembership(Projects, selected);
  }

  /** A category no project has shows nothing. */
  lemma UnknownCategoryShowsNothing(selected: string)
    requires selected != AllCategory
    requires forall i :: 0 <= i < |Projects| ==> Projects[i].category != selected
    ensures FilteredProjects(selected) == []
  {
    FilterOfAbsentCategory(Projects, selected);
  }

  lemma {:induction false} FilterOfAbsentCategory(projects: seq<Project>, category: string)
    requires forall i :: 0 <= i < |projects| ==> projects[i].category != category
    ensures FilterByCategory(projects, category) == []
  {
    if projects != [] {
      FilterOfAbsentCategory(projects[1..], category);
    }
  }

  /** Every button other than 'all' shows exactly one project. */
  lemma EachCategoryHasOneProject()
    ensures forall i :: 1 <= i < |Categories| ==> |FilteredProjects(Categories[i].id)| == 1
  {
  }
}
