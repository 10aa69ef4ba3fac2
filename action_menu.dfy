/** The decisions of the building action menu: which units and technologies
    a building offers, and which of their buttons are enabled. */
module ActionMenu {
  import opened Js
  import Units
  import Researches
  import Buildings

  /** The set of a player's completed research. */
  function CompletedSet(completedResearch: seq<string>): (done: set<string>)
    ensures forall id :: id in done <==> id in completedResearch
  {
    set id | id in completedResearch
  }

  /** canResearch: no requirement, or every required id completed. */
  function CanResearch(requiresResearch: Option<seq<string>>, done: set<string>): (ok: bool)
    ensures requiresResearch.None? ==> ok
    ensures requiresResearch.Some? ==>
              (ok <==> forall i :: 0 <= i < |requiresResearch.value| ==> requiresResearch.value[i] in done)
  {
    if requiresResearch.None? || |requiresResearch.value| == 0 then true
    else AllIn(requiresResearch.value, done)
  }

  /** Whether every id of the list is in the set. */
  function AllIn(ids: seq<string>, done: set<string>): (ok: bool)
    ensures ok <==> forall i :: 0 <= i < |ids| ==> ids[i] in done
  {
    if |ids| == 0 then true else ids[0] in done && AllIn(ids[1..], done)
  }

  /** Completing more research never withdraws an enabled option. */
  lemma CanResearchMonotone(requiresResearch: Option<seq<string>>, done: set<string>, more: set<string>)
    requires done <= more && CanResearch(requiresResearch, done)
    ensures CanResearch(requiresResearch, more)
  {
  }

  /** `Array.prototype.filter`, keeping order. */
  function Keep<T>(s: seq<T>, p: T -> bool): (r: seq<T>)
    ensures |r| <= |s|
    ensures forall i :: 0 <= i < |r| ==> r[i] in s && p(r[i])
    ensures forall i :: 0 <= i < |s| && p(s[i]) ==> s[i] in r
  {
    if |s| == 0 then [] else (if p(s[0]) then [s[0]] else []) + Keep(s[1..], p)
  }

  /** Filtering acts on each part of a list separately, so the kept elements
      stay in their original order. */
  lemma {:induction false} KeepAppend<T>(a: seq<T>, b: seq<T>, p: T -> bool)
    ensures Keep(a + b, p) == Keep(a, p) + Keep(b, p)
    decreases |a|
  {
    if |a| == 0 {
      assert a + b == b;
    } else {
      assert (a + b)[0] == a[0] && (a + b)[1..] == a[1..] + b;
      KeepAppend(a[1..], b, p);
    }
  }

  /** buildableUnits: the unit templates the building lists in canBuild. */
  function BuildableUnits(units: seq<Units.UnitTemplate>, building: Buildings.Building): (r: seq<Units.UnitTemplate>)
    ensures forall u :: u in r <==> u in units && u.typeId in building.canBuild
  {
    Keep(units, (u: Units.UnitTemplate) => u.typeId in building.canBuild)
  }

  /** researchableTechs: the research templates the building lists in can_research. */
  function ResearchableTechs(researches: seq<Researches.ResearchTemplate>, building: Buildings.Building)
    : (r: seq<Researches.ResearchTemplate>)
    ensures forall t :: t in r <==> t in researches && t.typeId in building.canResearch
  {
    Keep(researches, (t: Researches.ResearchTemplate) => t.typeId in building.canResearch)
  }

  /** A unit button is enabled once the unit's required research is done. */
  function UnitButtonEnabled(u: Units.UnitTemplate, completedResearch: seq<string>): (enabled: bool)
    ensures enabled <==> CanResearch(u.requiresResearch, CompletedSet(completedResearch))
    ensures u.requiresResearch.Some? ==>
              (enabled <==> forall id :: id in u.requiresResearch.value ==> id in completedResearch)
  {
    CanResearch(u.requiresResearch, CompletedSet(completedResearch))
  }

  /** A research button is enabled when its requirements are done and it is
      not itself done yet. */
  function TechButtonEnabled(t: Researches.ResearchTemplate, completedResearch: seq<string>): (enabled: bool)
    ensures enabled ==> t.typeId !in completedResearch
    ensures t.requiresResearch.Some? ==>
              (enabled <==> t.typeId !in completedResearch
                            && forall id :: id in t.requiresResearch.value ==> id in completedResearch)
    ensures t.requiresResearch.None? ==> (enabled <==> t.typeId !in completedResearch)
  {
    var done := CompletedSet(completedResearch);
    CanResearch(t.requiresResearch, done) && t.typeId !in done
  }

  /** Completing a technology disables its own button and never disables a
      unit button. */
  lemma CompletingResearch(t: Researches.ResearchTemplate, u: Units.UnitTemplate, completedResearch: seq<string>)
    requires UnitButtonEnabled(u, completedResearch)
    ensures !TechButtonEnabled(t, completedResearch + [t.typeId])
    ensures UnitButtonEnabled(u, completedResearch + [t.typeId])
  {
    CanResearchMonotone(u.requiresResearch, CompletedSet(completedResearch), CompletedSet(completedResearch + [t.typeId]));
  }

  /** Both build lists keep the catalog's order: the list for a
      concatenated catalog is the concatenation of the lists. */
  lemma BuildListsKeepOrder(us: seq<Units.UnitTemplate>, vs: seq<Units.UnitTemplate>,
                            rs: seq<Researches.ResearchTemplate>, qs: seq<Researches.ResearchTemplate>,
                            building: Buildings.Building)
    ensures BuildableUnits(us + vs, building) == BuildableUnits(us, building) + BuildableUnits(vs, building)
    ensures ResearchableTechs(rs + qs, building) == ResearchableTechs(rs, building) + ResearchableTechs(qs, building)
  {
    KeepAppend(us, vs, (u: Units.UnitTemplate) => u.typeId in building.canBuild);
    KeepAppend(rs, qs, (t: Researches.ResearchTemplate) => t.typeId in building.canResearch);
  }
}
