/** The base of every detection module: its description, its hooks and its issue list. */
module Base {
  import opened Wrappers
  import opened Report

  /** The entry points a module may declare; any other is logged and kept. */
  predicate ValidEntrypoint(entrypoint: string) {
    entrypoint == "post" || entrypoint == "callback"
  }

  class DetectionModule {
    const name: string
    const swcId: string
    const description: string
    const entrypoint: string
    const preHooks: seq<string>
    const postHooks: seq<string>
    /** `_issues`: the issues found since the last reset. */
    var issues: seq<Issue>

    /**
     * A missing hook list is the empty list; the entry point is stored even when
     * it is not valid; a new module has no issues.
     */
    constructor (name: string, swcId: string, description: string, entrypoint: string,
                 preHooks: Option<seq<string>>, postHooks: Option<seq<string>>)
      ensures this.name == name && this.swcId == swcId && this.description == description
      ensures this.entrypoint == entrypoint
      ensures this.preHooks == preHooks.GetOr([]) && this.postHooks == postHooks.GetOr([])
      ensures issues == []
    {
      this.name := name;
      this.swcId := swcId;
      this.description := description;
      this.entrypoint := entrypoint;
      this.preHooks := preHooks.GetOr([]);
      this.postHooks := postHooks.GetOr([]);
      issues := [];
    }

    /** The `issues` property: the module's own list. */
    function Issues(): (r: seq<Issue>)
      reads this
      ensures r == issues
    {
      issues
    }

    /** `reset_module`: forgets every issue. */
    method ResetModule()
      modifies this
      ensures issues == []
    {
      issues := [];
    }

    /** `execute` of the base class: there is nothing to run. */
    method Execute() returns (r: Result<seq<Issue>>)
      ensures r == Failure(NotImplementedError)
    {
      r := Failure(NotImplementedError);
    }

    /** `self._issues.extend(found)`, followed by returning `self.issues`. */
    method Extend(found: seq<Issue>) returns (r: seq<Issue>)
      modifies this
      ensures issues == old(issues) + found && r == issues
    {
      issues := issues + found;
      r := issues;
    }
  }
}
