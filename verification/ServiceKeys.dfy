/** The names operations lock by: a project, a branch, a service of a branch. */
module ServiceKeys {
  import opened OpLock

  function ProjectKey(project: string): Key { project + ":*project" }

  function BranchKey(branch: string): Key { branch + ":*branch" }

  function ServiceKey(branch: string, service: string): Key { branch + ":" + service }
}
