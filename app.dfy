/**
 * Opening a project in the editor (main.js:123-152): which project the application resumes
 * with at start-up, and what loading a project sets.
 */
module App {
  import opened Wrappers
  import opened Storage
  import opened TextControl

  /** The project created when there is none to resume. */
  const UntitledName: string := "Untitled Project"
  const StarterContent: string := "# My Project\n\nDescribe your project here...\n"

  /**
   * The id `loadLastProject` loads: the active id when a project with it exists, else the id of
   * the first project; `None` when there are no projects and one has to be created.
   */
  function ResumeId(projects: seq<Project>, lastId: Option<string>): Option<string> {
    if lastId.Some? && lastId.value != [] && FindProject(projects, lastId.value).Some? then lastId
    else if |projects| > 0 then Some(projects[0].id)
    else None
  }

  /** The project to resume, as `loadProject` then finds it. */
  function ResumeProject(projects: seq<Project>, lastId: Option<string>): Option<Project> {
    match ResumeId(projects, lastId)
    case None => None
    case Some(id) => FindProject(projects, id)
  }

  /**
   * A project is resumed whenever there is one: the last active project when it still exists,
   * otherwise the first of the list.
   */
  lemma ResumeChoice(projects: seq<Project>, lastId: Option<string>)
    ensures ResumeProject(projects, lastId).None? <==> projects == []
    ensures ResumeProject(projects, lastId).Some? ==> ResumeProject(projects, lastId).value in projects
    ensures lastId.Some? && lastId.value != [] && (exists p :: p in projects && p.id == lastId.value) ==>
      ResumeProject(projects, lastId).value.id == lastId.value
    ensures projects != [] && (lastId.None? || lastId.value == [] || forall p :: p in projects ==> p.id != lastId.value) ==>
      ResumeProject(projects, lastId) == Some(projects[0])
  {
    if lastId.Some? && lastId.value != [] {
      FindProjectFirst(projects, lastId.value);
    }
    if projects != [] {
      FindProjectFirst(projects, projects[0].id);
    }
  }

  /** `project.name || 'Untitled Project'`. */
  function DisplayName(name: string): string {
    if name == [] then UntitledName else name
  }

  /** The editor's application state beside the store and the textarea. */
  class Workspace {
    var currentProjectId: Option<string>
    var nameDisplay: string
    var documentTitle: string
    const store: Store
    const editor: TextArea

    constructor (store: Store, editor: TextArea)
      ensures this.store == store && this.editor == editor && currentProjectId.None?
    {
      this.store := store;
      this.editor := editor;
      currentProjectId := None;
      nameDisplay := UntitledName;
      documentTitle := "";
    }

    /** The editor shows project `p` and the store remembers it as the active project. */
    ghost predicate Shows(p: Project)
      reads this, store, editor
    {
      && currentProjectId == Some(p.id)
      && store.activeId == ActiveValue(Some(p.id))
      && editor.value == NormalizeNewlines(p.content)
      && editor.Valid()
      && nameDisplay == DisplayName(p.name)
      && documentTitle == p.name + " \U{2014} Inkwell"
    }

    /**
     * `loadProject(id)`: a found project is shown, with the cursor moved to the end unless
     * the editor already held its content; nothing happens for an unknown id.
     */
    method LoadProject(id: string)
      requires editor.Valid()
      modifies this, store, editor
      ensures var p := FindProject(old(store.projects), id);
        && (p.Some? ==> Shows(p.value))
        && (p.None? ==> currentProjectId == old(currentProjectId) && store.activeId == old(store.activeId)
                         && editor.State() == old(editor.State())
                         && nameDisplay == old(nameDisplay) && documentTitle == old(documentTitle))
      ensures var p := FindProject(old(store.projects), id);
        p.Some? ==>
          var n := NormalizeNewlines(p.value.content);
          editor.State() == if n == old(editor.value) then old(editor.State()) else Buffer(n, |n|, |n|)
      ensures store.projects == old(store.projects) && store.settings == old(store.settings)
    {
      var project := store.GetProject(id);
      if project.None? {
        return;
      }
      currentProjectId := Some(id);
      store.SetActiveProjectId(Some(id));
      editor.SetValue(project.value.content);
      nameDisplay := DisplayName(project.value.name);
      documentTitle := project.value.name + " \U{2014} Inkwell";
    }

    /**
     * `loadLastProject()` with the new project's id and creation time as parameters: the
     * resumed project is shown, and when the store has none a starter project is created and shown.
     */
    method LoadLastProject(newId: string, now: string)
      requires editor.Valid()
      modifies this, store, editor
      ensures var resumed := ResumeProject(old(store.projects), old(store.activeId));
        && (resumed.Some? ==> store.projects == old(store.projects) && Shows(resumed.value))
        && (resumed.None? ==>
              var created := Project(newId, UntitledName, StarterContent, now, now);
              store.projects == [created] && Shows(created))
      ensures store.settings == old(store.settings)
    {
      var lastId := store.GetActiveProjectId();
      var projects := store.projects;
      if lastId.Some? && lastId.value != [] && FindProject(projects, lastId.value).Some? {
        LoadProject(lastId.value);
      } else if |projects| > 0 {
        LoadProject(projects[0].id);
      } else {
        var id := store.CreateProject(newId, now, UntitledName, StarterContent);
        LoadProject(id);
      }
    }
  }
}
