/** A resource type of a resource set, read from its template. */
module Resources {
  import opened Js

  /** `possibility` maps a tile type name to the chance of the resource on it. */
  datatype ResourceTemplate = ResourceTemplate(
    typeId: string,
    name: Option<string>,
    texturePath: Option<string>,
    canBeOn: Option<seq<string>>,
    possibility: Option<map<string, int>>,
    description: Option<string>)

  datatype Resource = Resource(
    typeId: string,
    name: string,
    texture: Option<string>,
    canBeOn: seq<string>,
    possibility: map<string, int>,
    description: string)

  /** The `Resource` constructor. */
  function NewResource(t: ResourceTemplate): (r: Resource)
    ensures r.typeId == t.typeId
    ensures r.name != ""
    ensures TruthyStr(t.name) ==> r.name == t.name.value
    ensures !TruthyStr(t.name) ==> r.name == "Unnamed Resource"
    ensures r.texture == t.texturePath
    ensures r.canBeOn == (if t.canBeOn.Some? then t.canBeOn.value else [])
    ensures r.possibility == (if t.possibility.Some? then t.possibility.value else map[])
    ensures r.description == (if t.description.Some? then t.description.value else "")
  {
    Resource(
      typeId := t.typeId,
      name := OrStr(t.name, "Unnamed Resource"),
      texture := t.texturePath,
      canBeOn := t.canBeOn.GetOr([]),
      possibility := t.possibility.GetOr(map[]),
      description := OrStr(t.description, ""))
  }
}
