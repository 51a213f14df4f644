/**
 * Picking the reported atoms out of a simulation frame (`report`,
 * mdtools/openmm/reporter.py): the indices of the atoms whose name is
 * selected, then numpy fancy indexing of the full position array.
 *
 * A topology is the sequence of its atoms' names; an atom's index is its
 * position in that sequence, as OpenMM numbers atoms in topology order.
 */
module Topology {
  import opened Wrappers

  /** The indices, in topology order, of the atoms whose name is in `selection`. */
  function SelectAtomIndices(names: seq<string>, selection: seq<string>): (r: seq<nat>)
    ensures forall j :: 0 <= j < |r| ==> r[j] < |names| && names[r[j]] in selection
    ensures forall k :: 0 <= k < |names| && names[k] in selection ==> k in r
    ensures forall i, j :: 0 <= i < j < |r| ==> r[i] < r[j]
  {
    if names == [] then []
    else
      var n := |names| - 1;
      SelectAtomIndices(names[..n], selection) + (if names[n] in selection then [n] else [])
  }

  /**
   * `all[indices]` with an index list: None stands for the IndexError numpy
   * raises when an index is past the end.
   */
  function Gather<P>(all: seq<P>, indices: seq<nat>): (r: Option<seq<P>>)
    ensures r.Some? <==> forall j :: 0 <= j < |indices| ==> indices[j] < |all|
    ensures r.Some? ==> |r.value| == |indices|
    ensures r.Some? ==> forall j :: 0 <= j < |indices| ==> r.value[j] == all[indices[j]]
  {
    if indices == [] then Some([])
    else
      var n := |indices| - 1;
      match Gather(all, indices[..n])
      case None => None
      case Some(front) =>
        if indices[n] < |all| then Some(front + [all[indices[n]]]) else None
  }

  /**
   * Gathering the selected atoms fails exactly when some atom selected by
   * name lies beyond the positions supplied.
   */
  lemma SelectedGatherFails<P>(names: seq<string>, selection: seq<string>, all: seq<P>)
    ensures Gather(all, SelectAtomIndices(names, selection)).None? <==>
      exists k :: |all| <= k < |names| && names[k] in selection
  {
    var r := SelectAtomIndices(names, selection);
    if Gather(all, r).None? {
      var j :| 0 <= j < |r| && r[j] >= |all|;
      assert |all| <= r[j] < |names| && names[r[j]] in selection;
    }
  }
}
