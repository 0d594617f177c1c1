/**
 * The project-list editor of the admin page (pages/Admin.tsx): a password
 * gate, appending and deleting projects, and exporting the list as the
 * source text of the project data file.
 */
module AdminPanel {
  import opened Wrappers
  import opened JsText
  import opened ProjectData

  /** The add-project form: every field of a project except its id. */
  datatype ProjectForm = ProjectForm(
    title: string,
    category: string,
    description: string,
    imageUrl: string,
    link: string)

  const EmptyForm := ProjectForm("", "", "", "", "")

  /** The one password the gate accepts. */
  const Password := "admin"

  /** The project built from the form: the form's fields, the given id, and `#` for a missing link. */
  function NewProject(id: int, form: ProjectForm): (p: Project)
    ensures p.id == id
    ensures p.title == form.title && p.category == form.category
    ensures p.description == form.description && p.imageUrl == form.imageUrl
    ensures p.link != ""
    ensures form.link != "" ==> p.link == form.link
    ensures form.link == "" ==> p.link == "#"
  {
    Project(id, form.title, form.category, form.description, form.imageUrl,
      if form.link != "" then form.link else "#")
  }

  /** `projects.filter(p => p.id !== id)`. */
  function WithoutId(projects: seq<Project>, id: int): (r: seq<Project>)
    ensures |r| <= |projects|
    ensures forall p :: p in r <==> p in projects && p.id != id
  {
    if projects == [] then []
    else if projects[0].id != id then [projects[0]] + WithoutId(projects[1..], id)
    else WithoutId(projects[1..], id)
  }

  /** Filtering distributes over concatenation, so the kept projects stay in their order. */
  lemma {:induction false} WithoutIdAppend(a: seq<Project>, b: seq<Project>, id: int)
    ensures WithoutId(a + b, id) == WithoutId(a, id) + WithoutId(b, id)
  {
    if a == [] {
      assert a + b == b;
    } else {
      assert (a + b)[1..] == a[1..] + b;
      WithoutIdAppend(a[1..], b, id);
    }
  }

  /** Deleting an id no project has leaves the list as it was. */
  lemma {:induction false} WithoutIdAbsent(projects: seq<Project>, id: int)
    requires forall p :: p in projects ==> p.id != id
    ensures WithoutId(projects, id) == projects
  {
    if projects != [] {
      assert projects[0] in projects;
      assert forall p :: p in projects[1..] ==> p in projects;
      WithoutIdAbsent(projects[1..], id);
    }
  }

  const CodeHeader := "import { Project } from '../types';\n\nexport const projectsData: Project[] = [\n"

  const CodeFooter := "\n];"

  /** `projects.map(p => "  " + JSON.stringify(p, null, 2))`, with the serialiser as a parameter. */
  function Entries(projects: seq<Project>, stringify: Project -> string): (r: seq<string>)
    ensures |r| == |projects|
    ensures forall i :: 0 <= i < |projects| ==> r[i] == "  " + stringify(projects[i])
  {
    if projects == [] then [] else ["  " + stringify(projects[0])] + Entries(projects[1..], stringify)
  }

  /** The data file around its entries: the import and array header, then the closing bracket. */
  function Framed(body: string): string {
    CodeHeader + body + CodeFooter
  }

  /** The exported data file: the entries joined by ",\n" inside the frame. */
  function ExportCode(projects: seq<Project>, stringify: Project -> string): (r: string)
    ensures StartsWith(r, CodeHeader) && EndsWith(r, CodeFooter)
  {
    Framed(Join(Entries(projects, stringify), ",\n"))
  }

  /** An empty list exports to the header followed directly by the closing bracket. */
  lemma ExportEmpty(stringify: Project -> string)
    ensures ExportCode([], stringify) == Framed("")
  {
    assert Entries([], stringify) == [];
  }

  /** Mapping a list with one more project gives one more entry at the end. */
  lemma EntriesSnoc(projects: seq<Project>, p: Project, stringify: Project -> string)
    ensures Entries(projects + [p], stringify) == Entries(projects, stringify) + ["  " + stringify(p)]
  {
    var l := Entries(projects + [p], stringify);
    var r := Entries(projects, stringify) + ["  " + stringify(p)];
    assert |l| == |r|;
    forall i | 0 <= i < |l| ensures l[i] == r[i] {
      assert (projects + [p])[i] == if i < |projects| then projects[i] else p;
    }
  }

  /** Adding the first project exports just its entry. */
  lemma ExportFirst(p: Project, stringify: Project -> string)
    ensures ExportCode([p], stringify) == Framed("  " + stringify(p))
  {
    assert Entries([p], stringify) == ["  " + stringify(p)];
  }

  /** Adding to a non-empty list appends ",\n" and the new entry after the existing ones. */
  lemma ExportAfterAdd(projects: seq<Project>, p: Project, stringify: Project -> string)
    requires projects != []
    ensures ExportCode(projects + [p], stringify) ==
      Framed(Join(Entries(projects, stringify), ",\n") + ",\n" + ("  " + stringify(p)))
  {
    EntriesSnoc(projects, p, stringify);
    JoinSnoc(Entries(projects, stringify), "  " + stringify(p), ",\n");
  }

  /** The state of the admin page. */
  class AdminPanel {
    /** The list the data file currently holds, loaded on successful login. */
    const initialProjects: seq<Project>
    var isAuthenticated: bool
    var projects: seq<Project>
    var newProject: ProjectForm
    var generatedCode: string

    constructor(initialProjects: seq<Project>)
      ensures this.initialProjects == initialProjects
      ensures !isAuthenticated && projects == [] && newProject == EmptyForm && generatedCode == ""
    {
      this.initialProjects := initialProjects;
      isAuthenticated := false;
      projects := [];
      newProject := EmptyForm;
      generatedCode := "";
    }

    /**
     * The login effect, given the answer to the password prompt (`None` when
     * it was dismissed). Only the exact password opens the editor, on a copy
     * of the initial list; any other answer is refused with an alert. The
     * effect depends on `isAuthenticated` alone, so after a refusal it does
     * not run again until the page is mounted anew: this is its single run
     * after mount.
     */
    method Authenticate(answer: Option<string>) returns (refused: bool)
      modifies this`isAuthenticated, this`projects
      ensures old(isAuthenticated) ==> !refused && isAuthenticated && projects == old(projects)
      ensures !old(isAuthenticated) && answer == Some(Password) ==>
        !refused && isAuthenticated && projects == initialProjects
      ensures !old(isAuthenticated) && answer != Some(Password) ==>
        refused && !isAuthenticated && projects == old(projects)
    {
      refused := false;
      if !isAuthenticated {
        if answer == Some(Password) {
          isAuthenticated := true;
          projects := initialProjects;
        } else {
          refused := true;
        }
      }
    }

    /**
     * The editor's handlers below exist only in the unlocked view: the locked
     * page renders the access-denied message instead.
     */

    /** A form input's change handler replaces the form. */
    method EditForm(form: ProjectForm)
      requires isAuthenticated
      modifies this`newProject
      ensures newProject == form
    {
      newProject := form;
    }

    /** `handleAddProject`, with `Date.now()` as the parameter `now`. */
    method AddProject(now: int)
      requires isAuthenticated
      modifies this`projects, this`newProject
      ensures projects == old(projects) + [NewProject(now, old(newProject))]
      ensures |projects| == |old(projects)| + 1 && projects[..|old(projects)|] == old(projects)
      ensures newProject == EmptyForm
    {
      projects := projects + [NewProject(now, newProject)];
      newProject := EmptyForm;
    }

    /** `handleDeleteProject`, with the answer to the confirmation dialog as `confirmed`. */
    method DeleteProject(id: int, confirmed: bool)
      requires isAuthenticated
      modifies this`projects
      ensures confirmed ==> projects == WithoutId(old(projects), id)
      ensures !confirmed ==> projects == old(projects)
      ensures forall p :: p in projects ==> p in old(projects)
    {
      if confirmed {
        projects := WithoutId(projects, id);
      }
    }

    /** `handleGenerateCode`, with `JSON.stringify(p, null, 2)` as the parameter `stringify`. */
    method GenerateCode(stringify: Project -> string)
      requires isAuthenticated
      modifies this`generatedCode
      ensures generatedCode == ExportCode(projects, stringify)
    {
      var output := CodeHeader;
      output := output + Join(Entries(projects, stringify), ",\n");
      output := output + CodeFooter;
      generatedCode := output;
    }
  }
}
