/**
 * The entity model: a project and its status. `project-model.ts` is not modelled
 * from its text; its shape is the one the core constructs
 * (`new Project(id, title, description, numOfPeople, ProjectStatus.Active)`) and
 * reads (`id`, `title`, `description`, `people`, `status`).
 */
module ProjectModel {

  datatype ProjectStatus = Active | Finished

  /** The value of a project's fields at one moment: what a listener sees. */
  datatype ProjectData = ProjectData(
    id: string,
    title: string,
    description: string,
    people: int,
    status: ProjectStatus)

  /** A stored project object; the store writes `status` in place, nothing writes the rest. */
  class Project {
    const id: string
    const title: string
    const description: string
    const people: int
    var status: ProjectStatus

    constructor (id: string, title: string, description: string, people: int, status: ProjectStatus)
      ensures View() == ProjectData(id, title, description, people, status)
    {
      this.id := id;
      this.title := title;
      this.description := description;
      this.people := people;
      this.status := status;
    }

    function View(): ProjectData
      reads this
    {
      ProjectData(id, title, description, people, status)
    }
  }
}
