/**
 * The page's mutable view state: the colour mode, whether neighbourhoods are
 * shown merged into their groups (decided by the zoom level), and the set of
 * selected names, kept in the order they were selected.
 */
module ViewState {
  import opened Groups

  /** What the polygons are coloured by. */
  datatype ColorMode = AgeMode | IncomeMode

  /** Below this zoom level the map shows groups instead of single neighbourhoods. */
  const GroupZoomLimit: int := 13

  /** The selection without `name`, the others keeping their order (`Set.delete`). */
  function Without(selected: seq<string>, name: string): (r: seq<string>)
    ensures forall n :: n in r <==> n in selected && n != name
    ensures NoDuplicates(selected) ==> NoDuplicates(r)
    ensures name !in selected ==> r == selected
  {
    if selected == [] then []
    else
      var prefix := selected[..|selected| - 1];
      var init := Without(prefix, name);
      var last := selected[|selected| - 1];
      assert selected == prefix + [last];
      assert NoDuplicates(selected) ==> NoDuplicates(prefix) && last !in prefix;
      if last == name then init else init + [last]
  }

  /** A click on `name`: deselect it if selected, else append it (`Set.delete` / `Set.add`). */
  function Toggled(selected: seq<string>, name: string): seq<string>
  {
    if name in selected then Without(selected, name) else selected + [name]
  }

  /**
   * A click flips the membership of the clicked name and of no other name, and
   * keeps the selection free of repeats.
   */
  lemma ToggledFlips(selected: seq<string>, name: string, other: string)
    requires NoDuplicates(selected)
    ensures name in Toggled(selected, name) <==> name !in selected
    ensures other != name ==> (other in Toggled(selected, name) <==> other in selected)
    ensures NoDuplicates(Toggled(selected, name))
  {
  }

  /** Two clicks on the same name select the same names as before (the order may change). */
  lemma ToggledTwice(selected: seq<string>, name: string, other: string)
    requires NoDuplicates(selected)
    ensures other in Toggled(Toggled(selected, name), name) <==> other in selected
  {
  }

  class MapView {
    var colorMode: ColorMode
    var showGroups: bool
    var selected: seq<string>

    /** The selection is a set: no name twice. */
    ghost predicate Valid()
      reads this
    {
      NoDuplicates(selected)
    }

    /** The state at page load: age colours, groups shown, nothing selected. */
    constructor ()
      ensures Valid()
      ensures colorMode == AgeMode && showGroups && selected == []
    {
      colorMode := AgeMode;
      showGroups := true;
      selected := [];
    }

    /** Switch the colour mode; the layer is always rebuilt. */
    method SetColorMode(mode: ColorMode)
      requires Valid()
      modifies this
      ensures Valid()
      ensures colorMode == mode && showGroups == old(showGroups) && selected == old(selected)
    {
      colorMode := mode;
    }

    /**
     * A click on a polygon toggles its name in the selection; `highlighted`
     * says whether it is now drawn as selected.
     */
    method Click(name: string) returns (highlighted: bool)
      requires Valid()
      modifies this
      ensures Valid()
      ensures selected == Toggled(old(selected), name)
      ensures highlighted <==> name !in old(selected)
      ensures highlighted <==> name in selected
      ensures colorMode == old(colorMode) && showGroups == old(showGroups)
    {
      ToggledFlips(selected, name, name);
      if name in selected {
        selected := Without(selected, name);
        highlighted := false;
      } else {
        selected := selected + [name];
        highlighted := true;
      }
    }

    /** The remove button of one selected name. */
    method Deselect(name: string)
      requires Valid()
      modifies this
      ensures Valid()
      ensures selected == Without(old(selected), name)
      ensures colorMode == old(colorMode) && showGroups == old(showGroups)
    {
      selected := Without(selected, name);
    }

    /** The sidebar's close button empties the selection. */
    method ClearSelection()
      requires Valid()
      modifies this
      ensures Valid()
      ensures selected == []
      ensures colorMode == old(colorMode) && showGroups == old(showGroups)
    {
      selected := [];
    }

    /**
     * After a zoom: groups are shown below zoom 13; the layer is reloaded only
     * when that choice changes.
     */
    method Zoomed(zoom: int) returns (reload: bool)
      requires Valid()
      modifies this
      ensures Valid()
      ensures showGroups == (zoom < GroupZoomLimit)
      ensures reload <==> old(showGroups) != showGroups
      ensures colorMode == old(colorMode) && selected == old(selected)
    {
      var shouldShowGroups := zoom < GroupZoomLimit;
      reload := shouldShowGroups != showGroups;
      if reload {
        showGroups := shouldShowGroups;
      }
    }
  }
}
