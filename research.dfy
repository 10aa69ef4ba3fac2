/** A research (technology) of a research set, read from its template. */
module Researches {
  import opened Js

  datatype ResearchTemplate = ResearchTemplate(
    typeId: string,
    cost: Option<seq<CostLine>>,
    name: Option<string>,
    description: Option<string>,
    requiresResearch: Option<seq<string>>)

  datatype Research = Research(
    typeId: string,
    cost: seq<CostLine>,
    name: string,
    description: string,
    requiresResearch: seq<string>)

  /** The `Research` constructor. */
  function NewResearch(t: ResearchTemplate): (r: Research)
    ensures r.typeId == t.typeId
    ensures r.cost == (if t.cost.Some? then t.cost.value else [])
    ensures r.name != ""
    ensures TruthyStr(t.name) ==> r.name == t.name.value
    ensures !TruthyStr(t.name) ==> r.name == "Unnamed Research"
    ensures r.description == (if t.description.Some? then t.description.value else "")
    ensures r.requiresResearch == (if t.requiresResearch.Some? then t.requiresResearch.value else [])
  {
    Research(
      typeId := t.typeId,
      cost := t.cost.GetOr([]),
      name := OrStr(t.name, "Unnamed Research"),
      description := OrStr(t.description, ""),
      requiresResearch := t.requiresResearch.GetOr([]))
  }
}
