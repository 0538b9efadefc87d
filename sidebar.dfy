/**
 * The history sidebar: the conversation search, the section buttons and
 * the History toggle, the project workspace (creation, milestones) and the
 * prompt library (search, versions). Its state is local to the sidebar and
 * never persisted.
 */
module Sidebar {
  import opened Wrappers
  import opened Lists
  import opened Text
  import opened Conversations

  datatype Member = Member(id: string, name: string, role: string)
  datatype Milestone = Milestone(id: string, title: string, done: bool, date: string)
  datatype Project = Project(id: string, name: string, desc: string, members: seq<Member>, progress: real,
                             lastUpdated: string, datasets: seq<string>, milestones: seq<Milestone>, notes: string)
  datatype Version = Version(v: int, date: string, note: string)
  datatype LibraryItem = LibraryItem(id: string, title: string, kind: string, tags: seq<string>,
                                     versions: seq<Version>, content: string, sharedWith: seq<string>)
  datatype Section = DashboardSection | ProjectsSection | AssistantSection | LibrarySection | HistorySection

  const InitialProjects: seq<Project> := [
    Project("p-1", "Research AI", "Generative assistant for scientific literature",
            [Member("u1", "Alice", "Lead"), Member("u2", "Bob", "Data Scientist")],
            0.65, "2 days ago", ["papers.csv", "experiments.zip"],
            [Milestone("m1", "Dataset prepared", true, "2025-10-10"), Milestone("m2", "Baseline model", false, "2025-11-02")],
            "Focus on reproducible pipelines and prompt design for summarization."),
    Project("p-2", "Mobile UX", "Prototype mobile flows",
            [Member("u3", "Clara", "Designer")],
            0.4, "1 week ago", ["user_tests.csv"],
            [Milestone("m3", "Wireframes", true, "2025-09-01")],
            "Gather accessibility feedback and optimize microcopy.")
  ]

  const InitialLibrary: seq<LibraryItem> := [
    LibraryItem("l-1", "Summarize Paper Prompt", "prompt", ["summary", "paper"],
                [Version(1, "2025-08-01", "Initial"), Version(2, "2025-10-01", "Added examples")],
                "Summarize the main contributions, methods and results in 5 bullet points.", ["Alice", "Bob"]),
    LibraryItem("l-2", "Research Template", "template", ["template", "report"],
                [Version(1, "2025-07-10", "Initial")],
                "Sections: Abstract, Intro, Methods, Results, Discussion.", ["Clara"])
  ]

  const RecentLimit: nat := 8

  // ---------------------------------------------------------------- conversations

  /** Case-insensitive substring match of the search query in the title. */
  predicate TitleMatches(c: ConversationItem, query: string) {
    Includes(Lower(c.title), Lower(query))
  }

  /** `filteredConversations`: the summaries whose title contains the query, in order. */
  function FilterConversations(convs: seq<ConversationItem>, query: string): (r: seq<ConversationItem>)
    ensures IsSubsequence(r, convs)
    ensures forall c :: c in r <==> c in convs && TitleMatches(c, query)
    ensures forall c :: multiset(r)[c] == if TitleMatches(c, query) then multiset(convs)[c] else 0
  {
    Filter(convs, c => TitleMatches(c, query))
  }

  /** An empty search shows every conversation. */
  lemma EmptyQueryKeepsAll(convs: seq<ConversationItem>)
    ensures FilterConversations(convs, "") == convs
  {
    forall i | 0 <= i < |convs|
      ensures TitleMatches(convs[i], "")
    {
      IncludesEmpty(Lower(convs[i].title));
    }
    FilterAll(convs, c => TitleMatches(c, ""));
  }

  /** The case of the query does not matter: it filters like its lower-case form. */
  lemma QueryCaseIrrelevant(convs: seq<ConversationItem>, query: string)
    ensures FilterConversations(convs, query) == FilterConversations(convs, Lower(query))
  {
    LowerIdempotent(query);
    FilterSame(convs, c => TitleMatches(c, query), c => TitleMatches(c, Lower(query)));
  }

  /** Filtering by the same query twice changes nothing the first pass did not. */
  lemma FilterConversationsIdempotent(convs: seq<ConversationItem>, query: string)
    ensures FilterConversations(FilterConversations(convs, query), query) == FilterConversations(convs, query)
  {
    FilterIdempotent(convs, c => TitleMatches(c, query));
  }

  /** The dashboard's "Recent conversations": the first eight summaries. */
  function Recent(convs: seq<ConversationItem>): (r: seq<ConversationItem>)
    ensures |r| <= RecentLimit
    ensures r <= convs
    ensures |convs| <= RecentLimit ==> r == convs
    ensures |convs| > RecentLimit ==> |r| == RecentLimit
  {
    if |convs| <= RecentLimit then convs else convs[..RecentLimit]
  }

  /** What the list area of the sidebar shows. */
  datatype HistoryView = Prompt | NoResults | NoConversations | Listed(items: seq<ConversationItem>)

  function HistoryDisplay(show: bool, convs: seq<ConversationItem>, query: string): (v: HistoryView)
    ensures !show ==> v == Prompt
    ensures show ==> v != Prompt
    ensures show && FilterConversations(convs, query) != [] ==> v == Listed(FilterConversations(convs, query))
    ensures show && FilterConversations(convs, query) == [] ==> v == if query != "" then NoResults else NoConversations
    ensures v.Listed? ==> v.items != []
    ensures v == NoConversations ==> query == "" && convs == []
  {
    if !show then Prompt
    else
      var filtered := FilterConversations(convs, query);
      if filtered == [] then
        if query != "" then NoResults
        else
          EmptyQueryKeepsAll(convs);
          NoConversations
      else Listed(filtered)
  }

  // ---------------------------------------------------------------- History toggle

  /**
   * The History button: from any other section it switches to History with
   * the list shown; inside History it flips the list's visibility.
   */
  function ToggleHistory(section: Section, show: bool): (r: (Section, bool))
    ensures r.0 == HistorySection
    ensures section != HistorySection ==> r.1
    ensures section == HistorySection ==> r.1 == !show
  {
    if section != HistorySection then (HistorySection, true) else (HistorySection, !show)
  }

  /** Two presses inside History restore the list's visibility; from elsewhere, they hide it. */
  lemma ToggleHistoryTwice(section: Section, show: bool)
    ensures var r := ToggleHistory(section, show);
            ToggleHistory(r.0, r.1) == (HistorySection, if section == HistorySection then show else false)
  {
  }

  // ---------------------------------------------------------------- projects

  /** `!selectedProjectId`: no selection, or the empty id. */
  predicate HasSelection(sel: Option<string>) {
    sel.Some? && sel.value != ""
  }

  /**
   * `s.find(x => key(x) === sel) || s[0]`: the first element whose key is
   * the selection, else the first element. The workspace shows the project
   * chosen this way, and the library the item.
   */
  function Displayed<T>(s: seq<T>, key: T -> string, sel: Option<string>): (r: Option<T>)
    ensures r.Some? <==> s != []
    ensures r.Some? ==> r.value in s
    ensures sel.Some? && (exists i :: 0 <= i < |s| && key(s[i]) == sel.value) ==>
      exists i :: 0 <= i < |s| && r == Some(s[i]) && key(s[i]) == sel.value
                  && forall j :: 0 <= j < i ==> key(s[j]) != sel.value
    ensures s != [] && (sel.None? || forall i :: 0 <= i < |s| ==> key(s[i]) != sel.value) ==> r == Some(s[0])
  {
    var found := match sel
      case None => None
      case Some(id) => FindFirst(s, (x: T) => key(x) == id);
    if found.Some? then Some(s[found.value]) else if s == [] then None else Some(s[0])
  }

  function NewProject(pid: string, name: string): Project {
    Project(pid, name, "New project", [], 0.01, "now", [], [], "")
  }

  /** The Create button: an empty name does nothing, otherwise a blank project is appended. */
  function CreateProject(projects: seq<Project>, name: string, pid: string): (r: seq<Project>)
    ensures name == "" ==> r == projects
    ensures name != "" ==> |r| == |projects| + 1 && r[..|projects|] == projects
    ensures name != "" ==> r[|projects|].name == name && r[|projects|].id == pid
    ensures name != "" ==> r[|projects|].milestones == [] && r[|projects|].members == []
    ensures name != "" ==> r[|projects|].datasets == []
  {
    if name == "" then projects else projects + [NewProject(pid, name)]
  }

  function WithMilestone(p: Project, sel: string, m: Milestone): Project {
    if p.id == sel then p.(milestones := p.milestones + [m]) else p
  }

  /**
   * `addMilestone`: appends a pending milestone dated `date` to every
   * project whose id is the selected one; nothing without a selection.
   */
  function AddMilestone(projects: seq<Project>, sel: Option<string>, mid: string, title: string, date: string): (r: seq<Project>)
    ensures !HasSelection(sel) ==> r == projects
    ensures |r| == |projects|
    ensures forall i :: 0 <= i < |projects| ==> r[i].id == projects[i].id
    ensures HasSelection(sel) ==> forall i :: 0 <= i < |projects| ==>
      r[i].milestones == projects[i].milestones + (if projects[i].id == sel.value then [Milestone(mid, title, false, date)] else [])
    ensures forall i :: 0 <= i < |projects| ==> r[i] == projects[i].(milestones := r[i].milestones)
  {
    if !HasSelection(sel) then projects
    else Map(projects, p => WithMilestone(p, sel.value, Milestone(mid, title, false, date)))
  }

  function Flip(m: Milestone, mid: string): Milestone {
    if m.id == mid then m.(done := !m.done) else m
  }

  /** Flips `done` on every milestone whose id is `mid`. */
  function FlipIn(ms: seq<Milestone>, mid: string): (r: seq<Milestone>)
    ensures |r| == |ms|
    ensures forall i :: 0 <= i < |ms| ==> r[i] == Flip(ms[i], mid)
  {
    Map(ms, m => Flip(m, mid))
  }

  function WithFlip(p: Project, sel: string, mid: string): Project {
    if p.id == sel then p.(milestones := FlipIn(p.milestones, mid)) else p
  }

  /** `toggleMilestone`: flips milestone `mid` of the selected project; nothing without a selection. */
  function ToggleMilestone(projects: seq<Project>, sel: Option<string>, mid: string): (r: seq<Project>)
    ensures !HasSelection(sel) ==> r == projects
    ensures |r| == |projects|
    ensures forall i :: 0 <= i < |projects| ==> r[i] == projects[i].(milestones := r[i].milestones)
    ensures forall i :: 0 <= i < |projects| ==> |r[i].milestones| == |projects[i].milestones|
    ensures HasSelection(sel) ==> forall i :: 0 <= i < |projects| ==>
      r[i].milestones == if projects[i].id == sel.value then FlipIn(projects[i].milestones, mid) else projects[i].milestones
  {
    if !HasSelection(sel) then projects
    else Map(projects, p => WithFlip(p, sel.value, mid))
  }

  lemma FlipInTwice(ms: seq<Milestone>, mid: string)
    ensures FlipIn(FlipIn(ms, mid), mid) == ms
  {
    assert forall i :: 0 <= i < |ms| ==> FlipIn(FlipIn(ms, mid), mid)[i] == ms[i];
  }

  /** Toggling the same milestone twice restores every project. */
  lemma ToggleMilestoneTwice(projects: seq<Project>, sel: Option<string>, mid: string)
    ensures ToggleMilestone(ToggleMilestone(projects, sel, mid), sel, mid) == projects
  {
    if HasSelection(sel) {
      var once := ToggleMilestone(projects, sel, mid);
      var twice := ToggleMilestone(once, sel, mid);
      forall i | 0 <= i < |projects|
        ensures twice[i] == projects[i]
      {
        FlipInTwice(projects[i].milestones, mid);
      }
    }
  }

  // ---------------------------------------------------------------- library

  /** The library search: lower-cased title contains the lower-cased query, or some tag, as written, does. */
  predicate LibraryMatches(l: LibraryItem, query: string) {
    Includes(Lower(l.title), Lower(query))
    || exists k :: 0 <= k < |l.tags| && Includes(l.tags[k], Lower(query))
  }

  function FilterLibrary(items: seq<LibraryItem>, query: string): (r: seq<LibraryItem>)
    ensures IsSubsequence(r, items)
    ensures forall l :: l in r <==> l in items && LibraryMatches(l, query)
    ensures forall l :: multiset(r)[l] == if LibraryMatches(l, query) then multiset(items)[l] else 0
  {
    Filter(items, l => LibraryMatches(l, query))
  }

  /** A string can only contain another of the same length by being equal to it. */
  lemma NotIncludesSameLength(s: string, sub: string)
    requires |s| == |sub| && s != sub
    ensures !Includes(s, sub)
  {
    IncludesIff(s, sub);
    assert s[0..|sub|] == s;
  }

  /** Tags are compared without lower-casing them: a tag with a capital letter misses its own spelling. */
  lemma TagsCaseSensitive()
    ensures !LibraryMatches(LibraryItem("l-9", "Go", "prompt", ["AI"], [], "", []), "AI")
  {
    var item := LibraryItem("l-9", "Go", "prompt", ["AI"], [], "", []);
    assert Lower("AI") == "ai";
    assert Lower("Go") == "go";
    NotIncludesSameLength("go", "ai");
    NotIncludesSameLength("AI", "ai");
    assert forall k :: 0 <= k < |item.tags| ==> item.tags[k] == "AI";
  }

  /** The next version of an item is numbered one past its current count. */
  function NextVersion(item: LibraryItem, note: string, date: string): LibraryItem {
    item.(versions := item.versions + [Version(|item.versions| + 1, date, note)])
  }

  /** `addVersion`: every item with this id gets a new version carrying the note. */
  function AddVersion(items: seq<LibraryItem>, id: string, note: string, date: string): (r: seq<LibraryItem>)
    ensures |r| == |items|
    ensures forall i :: 0 <= i < |items| ==> r[i] == (if items[i].id == id then NextVersion(items[i], note, date) else items[i])
  {
    Map(items, (item: LibraryItem) => if item.id == id then NextVersion(item, note, date) else item)
  }

  /** Versions numbered 1, 2, 3, ... in order. */
  predicate Consecutive(vs: seq<Version>) {
    forall i :: 0 <= i < |vs| ==> vs[i].v == i + 1
  }

  predicate AllConsecutive(items: seq<LibraryItem>) {
    forall i :: 0 <= i < |items| ==> Consecutive(items[i].versions)
  }

  /** Adding a version keeps every item's numbering consecutive. */
  lemma AddVersionConsecutive(items: seq<LibraryItem>, id: string, note: string, date: string)
    requires AllConsecutive(items)
    ensures AllConsecutive(AddVersion(items, id, note, date))
  {
    var r := AddVersion(items, id, note, date);
    forall i | 0 <= i < |items|
      ensures Consecutive(r[i].versions)
    {
      var vs := items[i].versions;
      if items[i].id == id {
        assert r[i].versions == vs + [Version(|vs| + 1, date, note)];
        assert forall j :: 0 <= j < |vs| ==> r[i].versions[j] == vs[j];
      }
    }
  }

  // ---------------------------------------------------------------- state

  /** The sidebar's own state and its click handlers. */
  class SidebarState {
    var searchQuery: string
    var selectedSection: Section
    var showHistoryList: bool
    var modalOpen: bool
    var modalSection: Option<Section>
    var projects: seq<Project>
    var libraryItems: seq<LibraryItem>
    var selectedProjectId: Option<string>
    var newProjectName: string

    /** Every library item's versions stay numbered 1..n. */
    ghost predicate Valid()
      reads this
    {
      AllConsecutive(libraryItems)
    }

    constructor ()
      ensures Valid()
      ensures searchQuery == "" && selectedSection == DashboardSection && showHistoryList
      ensures !modalOpen && modalSection == None
      ensures projects == InitialProjects && libraryItems == InitialLibrary
      ensures selectedProjectId == None && newProjectName == ""
    {
      searchQuery, selectedSection, showHistoryList := "", DashboardSection, true;
      modalOpen, modalSection := false, None;
      projects, libraryItems := InitialProjects, InitialLibrary;
      selectedProjectId, newProjectName := None, "";
    }

    method SetSearchQuery(q: string)
      requires Valid()
      modifies this`searchQuery
      ensures Valid() && searchQuery == q
    {
      searchQuery := q;
    }

    /** Dashboard, Projects and Library open their panel; AI Assistant closes any panel. */
    method ClickSection(s: Section)
      requires Valid()
      requires s != HistorySection
      modifies this`selectedSection, this`modalOpen, this`modalSection
      ensures Valid() && selectedSection == s
      ensures s == AssistantSection ==> !modalOpen && modalSection == None
      ensures s != AssistantSection ==> modalOpen && modalSection == Some(s)
    {
      if s == AssistantSection {
        modalOpen, modalSection := false, None;
      } else {
        modalSection, modalOpen := Some(s), true;
      }
      selectedSection := s;
    }

    /** The panel's Close button. */
    method CloseModal()
      requires Valid()
      modifies this`modalOpen, this`modalSection
      ensures Valid() && !modalOpen && modalSection == None
    {
      modalOpen, modalSection := false, None;
    }

    method ClickHistory()
      requires Valid()
      modifies this`selectedSection, this`showHistoryList
      ensures Valid()
      ensures (selectedSection, showHistoryList) == ToggleHistory(old(selectedSection), old(showHistoryList))
    {
      if selectedSection != HistorySection {
        selectedSection := HistorySection;
        showHistoryList := true;
      } else {
        showHistoryList := !showHistoryList;
      }
    }

    method SelectProject(id: string)
      requires Valid()
      modifies this`selectedProjectId
      ensures Valid() && selectedProjectId == Some(id)
    {
      selectedProjectId := Some(id);
    }

    method SetNewProjectName(name: string)
      requires Valid()
      modifies this`newProjectName
      ensures Valid() && newProjectName == name
    {
      newProjectName := name;
    }

    /** The Create button; `pid` is the id built from the clock. */
    method ClickCreateProject(pid: string)
      requires Valid()
      modifies this`projects, this`newProjectName
      ensures Valid()
      ensures projects == CreateProject(old(projects), old(newProjectName), pid)
      ensures newProjectName == if old(newProjectName) == "" then old(newProjectName) else ""
    {
      if newProjectName == "" {
        return;
      }
      projects := CreateProject(projects, newProjectName, pid);
      newProjectName := "";
    }

    /** The Add milestone button: an empty title field does nothing. */
    method ClickAddMilestone(title: string, mid: string, date: string)
      requires Valid()
      modifies this`projects
      ensures Valid()
      ensures projects == if title == "" then old(projects) else AddMilestone(old(projects), selectedProjectId, mid, title, date)
    {
      if title == "" {
        return;
      }
      projects := AddMilestone(projects, selectedProjectId, mid, title, date);
    }

    method ClickToggleMilestone(mid: string)
      requires Valid()
      modifies this`projects
      ensures Valid()
      ensures projects == ToggleMilestone(old(projects), selectedProjectId, mid)
    {
      projects := ToggleMilestone(projects, selectedProjectId, mid);
    }

    /** The Add version button of the displayed library item. */
    method ClickAddVersion(id: string, note: string, date: string)
      requires Valid()
      modifies this`libraryItems
      ensures Valid()
      ensures libraryItems == AddVersion(old(libraryItems), id, note, date)
    {
      AddVersionConsecutive(libraryItems, id, note, date);
      libraryItems := AddVersion(libraryItems, id, note, date);
    }
  }
}
