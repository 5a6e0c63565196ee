/**
 * Navigation over the course: modules in order, each with its submodules in
 * order. The curriculum itself is a data table; the helpers take it as the
 * parameter `course`.
 */
module CourseData {
  import opened Wrappers

  datatype Submodule = Submodule(id: string, title: string)

  datatype Module = Module(id: int, title: string, submodules: seq<Submodule>)

  /** `COURSE_MODULES.flatMap((m) => m.submodules)`: every submodule, module by module. */
  function AllSubmodules(course: seq<Module>): (all: seq<Submodule>)
  {
    if course == [] then [] else course[0].submodules + AllSubmodules(course[1..])
  }

  /** `getTotalSubmodules`: the submodule counts added up from the first module on. */
  function TotalSubmodules(course: seq<Module>): (n: nat)
    ensures n == |AllSubmodules(course)|
  {
    CountFromAdds(course, 0);
    CountFrom(course, 0)
  }

  /** The `reduce` with its accumulator `acc`. */
  function CountFrom(course: seq<Module>, acc: nat): (n: nat)
  {
    if course == [] then acc else CountFrom(course[1..], acc + |course[0].submodules|)
  }

  /** The total is the number of submodules in the flattened course. */
  lemma {:induction false} TotalIsAllSubmodules(course: seq<Module>)
    ensures TotalSubmodules(course) == |AllSubmodules(course)|
  {
    CountFromAdds(course, 0);
  }

  lemma {:induction false} CountFromAdds(course: seq<Module>, acc: nat)
    ensures CountFrom(course, acc) == acc + |AllSubmodules(course)|
  {
    if course != [] {
      CountFromAdds(course[1..], acc + |course[0].submodules|);
    }
  }

  /** `submodules.findIndex((s) => s.id === id)`: the first position holding `id`, or -1. */
  function IndexOf(subs: seq<Submodule>, id: string): (i: int)
    ensures -1 <= i < |subs|
    ensures i >= 0 ==> subs[i].id == id && forall j :: 0 <= j < i ==> subs[j].id != id
    ensures i == -1 ==> forall j :: 0 <= j < |subs| ==> subs[j].id != id
  {
    if subs == [] then -1
    else if subs[0].id == id then 0
    else
      var rest := IndexOf(subs[1..], id);
      if rest == -1 then -1 else rest + 1
  }

  /** `getNextSubmodule`: the entry after `id`; for an unknown id the index is -1, so the first entry. */
  function NextSubmodule(course: seq<Module>, id: string): (next: Option<Submodule>)
    ensures next.Some? ==> next.value in AllSubmodules(course)
    ensures next.None? <==> IndexOf(AllSubmodules(course), id) == |AllSubmodules(course)| - 1
  {
    var all := AllSubmodules(course);
    var i := IndexOf(all, id);
    if i + 1 < |all| then Some(all[i + 1]) else None
  }

  /** `getPreviousSubmodule`: the entry before `id`, none for the first entry or an unknown id. */
  function PreviousSubmodule(course: seq<Module>, id: string): (prev: Option<Submodule>)
    ensures prev.Some? ==> prev.value in AllSubmodules(course)
    ensures prev.None? <==> IndexOf(AllSubmodules(course), id) <= 0
  {
    var all := AllSubmodules(course);
    var i := IndexOf(all, id);
    if i > 0 then Some(all[i - 1]) else None
  }

  /** `findModule`: the first module with the id. */
  function FindModule(course: seq<Module>, moduleId: int): (m: Option<Module>)
    ensures m.Some? ==> m.value in course && m.value.id == moduleId
    ensures m.None? <==> forall k :: 0 <= k < |course| ==> course[k].id != moduleId
    ensures m.Some? ==> exists k :: 0 <= k < |course| && course[k] == m.value
                                    && forall j :: 0 <= j < k ==> course[j].id != moduleId
  {
    if course == [] then None
    else if course[0].id == moduleId then Some(course[0])
    else FindModule(course[1..], moduleId)
  }

  /** The first submodule of `subs` with the id (`Array.prototype.find`). */
  function FindIn(subs: seq<Submodule>, id: string): (s: Option<Submodule>)
  {
    if subs == [] then None
    else if subs[0].id == id then Some(subs[0])
    else FindIn(subs[1..], id)
  }

  /** `findSubmodule`: each module's submodules searched in turn, the first hit returned. */
  method FindSubmodule(course: seq<Module>, id: string) returns (found: Option<Submodule>)
    ensures found == FirstWithId(AllSubmodules(course), id)
  {
    var k := 0;
    while k < |course|
      invariant 0 <= k <= |course|
      invariant FirstWithId(AllSubmodules(course), id) == FirstWithId(AllSubmodules(course[k..]), id)
    {
      found := FindIn(course[k].submodules, id);
      FindInIsFirst(course[k].submodules, id);
      assert course[k..][1..] == course[k + 1..];
      FirstWithIdAppend(course[k].submodules, AllSubmodules(course[k + 1..]), id);
      if found.Some? {
        return;
      }
      k := k + 1;
    }
    assert course[k..] == [];
    found := None;
  }

  /** The entry at the first position holding `id`, if any: the reference for the searches. */
  function FirstWithId(subs: seq<Submodule>, id: string): (s: Option<Submodule>)
  {
    var i := IndexOf(subs, id);
    if i >= 0 then Some(subs[i]) else None
  }

  lemma {:induction false} FindInIsFirst(subs: seq<Submodule>, id: string)
    ensures FindIn(subs, id) == FirstWithId(subs, id)
  {
    if subs != [] && subs[0].id != id {
      FindInIsFirst(subs[1..], id);
    }
  }

  /** Searching a concatenation finds the hit in the first part when there is one. */
  lemma FirstWithIdAppend(a: seq<Submodule>, b: seq<Submodule>, id: string)
    ensures FirstWithId(a + b, id) == if FirstWithId(a, id).Some? then FirstWithId(a, id) else FirstWithId(b, id)
  {
    var ia := IndexOf(a, id);
    var ib := IndexOf(b, id);
    if ia >= 0 {
      assert (a + b)[ia] == a[ia];
    } else if ib >= 0 {
      assert (a + b)[|a| + ib] == b[ib];
    }
  }

  /** No two submodules of the course share an id. */
  predicate UniqueIds(subs: seq<Submodule>)
  {
    forall i, j :: 0 <= i < j < |subs| ==> subs[i].id != subs[j].id
  }

  /** In a course without repeated ids, the entry at position `i` is found at `i`. */
  lemma IndexOfUnique(subs: seq<Submodule>, i: nat)
    requires UniqueIds(subs) && i < |subs|
    ensures IndexOf(subs, subs[i].id) == i
  {
  }

  /** With unique ids, the next of the entry at flat position `i` is the entry at `i + 1` and its previous the entry at `i - 1`. */
  lemma NavigationSteps(course: seq<Module>, i: nat)
    requires UniqueIds(AllSubmodules(course)) && i < |AllSubmodules(course)|
    ensures i + 1 < |AllSubmodules(course)| ==>
              NextSubmodule(course, AllSubmodules(course)[i].id) == Some(AllSubmodules(course)[i + 1])
    ensures i + 1 == |AllSubmodules(course)| ==> NextSubmodule(course, AllSubmodules(course)[i].id) == None
    ensures i > 0 ==> PreviousSubmodule(course, AllSubmodules(course)[i].id) == Some(AllSubmodules(course)[i - 1])
    ensures i == 0 ==> PreviousSubmodule(course, AllSubmodules(course)[i].id) == None
  {
    IndexOfUnique(AllSubmodules(course), i);
  }

  /** An unknown id leads to the first submodule, and nothing comes before it. */
  lemma UnknownIdNavigation(course: seq<Module>, id: string)
    requires forall s :: s in AllSubmodules(course) ==> s.id != id
    ensures NextSubmodule(course, id) == if AllSubmodules(course) == [] then None else Some(AllSubmodules(course)[0])
    ensures PreviousSubmodule(course, id) == None
  {
  }

  /** The last submodule has no next and the first has no previous. */
  lemma NavigationEnds(course: seq<Module>)
    requires UniqueIds(AllSubmodules(course)) && AllSubmodules(course) != []
    ensures NextSubmodule(course, AllSubmodules(course)[|AllSubmodules(course)| - 1].id) == None
    ensures PreviousSubmodule(course, AllSubmodules(course)[0].id) == None
  {
    var all := AllSubmodules(course);
    IndexOfUnique(all, |all| - 1);
    IndexOfUnique(all, 0);
  }

  /** With unique ids, going forward then back, or back then forward, returns to the same submodule. */
  lemma NextThenPrevious(course: seq<Module>, i: nat)
    requires UniqueIds(AllSubmodules(course)) && i < |AllSubmodules(course)|
    ensures var s := AllSubmodules(course)[i];
      && (i + 1 < |AllSubmodules(course)| ==>
            NextSubmodule(course, s.id).Some? && PreviousSubmodule(course, NextSubmodule(course, s.id).value.id) == Some(s))
      && (i > 0 ==>
            PreviousSubmodule(course, s.id).Some? && NextSubmodule(course, PreviousSubmodule(course, s.id).value.id) == Some(s))
  {
    var all := AllSubmodules(course);
    IndexOfUnique(all, i);
    if i + 1 < |all| {
      IndexOfUnique(all, i + 1);
    }
    if i > 0 {
      IndexOfUnique(all, i - 1);
    }
  }
}
