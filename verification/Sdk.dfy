/** The action context the agent client presents (earned_autonomy/enforcement/sdk.py). */
module Sdk {
  import opened JsonValues
  import opened Ontology

  /** `ctx.setdefault(key, value)`. */
  function SetDefault(d: Dict, key: string, value: Json): Dict {
    if key in d then d else d[key := value]
  }

  /** The event metadata, then the overrides, then the rank derived from the class. */
  function ActionContext(metadata: Dict, overrides: Dict, authority: AuthorityClass): Dict {
    SetDefault(metadata + overrides, "consequence_rank", Num(ConsequenceRank(authority)))
  }
}
