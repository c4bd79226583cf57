/** The records of a generated learning path, as the dashboard, the
    progress view, the tools view and the path-generation function share
    them. */
module LearningPaths {
  import opened Wrappers

  datatype Task = Task(id: string, title: string, description: string, completed: bool)

  datatype Milestone = Milestone(id: string, title: string, description: string, tasks: seq<Task>, order: int)

  datatype Tool = Tool(id: string, name: string, category: string, description: string,
                       url: Option<string>, isCustom: Option<bool>)

  datatype LearningPath = LearningPath(goal: string, milestones: seq<Milestone>, suggestedTools: seq<Tool>)
}
