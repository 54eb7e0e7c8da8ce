/**
 * The group table: group name -> member neighbourhood names, in the order the
 * groups file lists them.
 */
module Groups {
  import opened Results

  /** One entry of the group table. */
  datatype Group = Group(name: string, members: seq<string>)

  /** No name occurs twice. */
  predicate NoDuplicates(names: seq<string>)
  {
    forall i, j | 0 <= i < j < |names| :: names[i] != names[j]
  }

  /** `groups.hasOwnProperty(name) ? groups[name] : undefined`. */
  function Lookup(groups: seq<Group>, name: string): (r: Option<seq<string>>)
    ensures r.None? <==> forall g | g in groups :: g.name != name
    ensures r.Some? ==> Group(name, r.value) in groups
  {
    if groups == [] then None
    else if groups[0].name == name then Some(groups[0].members)
    else Lookup(groups[1..], name)
  }

  /** `new Set(names)`: the names without repeats, each where it first occurs. */
  function SetOf(names: seq<string>): (r: seq<string>)
    ensures NoDuplicates(r)
    ensures forall n :: n in r <==> n in names
    ensures names != [] ==> r != [] && r[0] == names[0]
  {
    if names == [] then []
    else
      var rest := SetOf(names[..|names| - 1]);
      if names[|names| - 1] in rest then rest else rest + [names[|names| - 1]]
  }
}
