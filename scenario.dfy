/**
 * A run of the reporter: point cloud only, two frames per file, three
 * reports of a two-atom selection. The second report writes the first two
 * frames in [frame, coordinate, atom] layout; the third stays buffered.
 */
module Scenario {
  import opened Wrappers
  import opened Frames
  import opened Contacts
  import opened Reporter
  import Topology
  import Batches

  /** Stand-ins for the analysis libraries; with only the point cloud on, none of them is called. */
  function Stub(): Analysis<int> {
    Analysis(
      (file: string, selection: string) => [],
      (file: string, selection: string) => (p: seq<Vec3<int>>) => p,
      (p: seq<Vec3<int>>, threshold: int) => SparseMatrix([]),
      (p: seq<Vec3<int>>, q: seq<Vec3<int>>) => 0,
      (m: SparseMatrix, n: SparseMatrix) => 0)
  }

  /** The sample of a frame when only the point cloud is on. */
  function Cloud(p: seq<Vec3<int>>): Sample<int> {
    Sample(None, Some(p), None, None)
  }

  /** Both atoms of the topology are named "CA": both are selected. */
  lemma BothSelected()
    ensures Topology.SelectAtomIndices(["CA", "CA"], ["CA"]) == [0, 1]
  {
    var ca: string := "CA";
    var names := [ca, ca];
    assert ca in [ca];
    assert names[..1] == [ca] && [ca][..0] == [];
    assert Topology.SelectAtomIndices([], [ca]) == [];
    assert Topology.SelectAtomIndices([ca], [ca]) == [0];
    assert Topology.SelectAtomIndices(names, [ca]) == Topology.SelectAtomIndices([ca], [ca]) + [1];
  }

  /** So the reporter keeps a two-atom frame whole, and only its point cloud is computed. */
  lemma SelectsBoth(r: OfflineReporter<int>, p: seq<Vec3<int>>)
    requires r.openmmSelection == ["CA"] && |p| == 2
    requires !r.contactMap && r.pointCloud && !r.fractionOfContacts && r.referencePositions.None?
    ensures r.SelectedPositions(["CA", "CA"], p) == Some(p)
    ensures r.Descriptors(p) == Cloud(p)
  {
    BothSelected();
    var g := Topology.Gather(p, [0, 1]);
    assert g.Some? && g.value == p;
  }

  /** A two-atom frame in [coordinate, atom] layout. */
  lemma TransposeTwo(u: Vec3<int>, v: Vec3<int>)
    ensures TransposeFrame([u, v]) == [[u.x, v.x], [u.y, v.y], [u.z, v.z]]
  {
    var t := TransposeFrame([u, v]);
    assert t[0] == [u.x, v.x] && t[1] == [u.y, v.y] && t[2] == [u.z, v.z];
  }

  /** The file the second report writes: the first two frames' point clouds, and nothing else. */
  lemma FirstBatch(r: OfflineReporter<int>, p1: seq<Vec3<int>>, p2: seq<Vec3<int>>)
    requires p1 == [Vec3(0, 0, 0), Vec3(1, 0, 0)] && p2 == [Vec3(0, 0, 0), Vec3(2, 0, 0)]
    requires r.baseName == "traj"
    requires !r.contactMap && r.pointCloud && !r.fractionOfContacts && r.referencePositions.None?
    ensures var b := r.BatchOf([Cloud(p1), Cloud(p2)]);
      b.fileName == "traj.h5" && b.contactMap.None? && b.rmsd.None? && b.fractionOfContacts.None? &&
      b.pointCloud == Some([[[0, 1], [0, 0], [0, 0]], [[0, 2], [0, 0], [0, 0]]])
  {
    assert [Cloud(p1), Cloud(p2)][..1] == [Cloud(p1)] && [Cloud(p1)][..0] == [];
    assert Batches.Collected([Cloud(p1), Cloud(p2)], CloudSlot) == [p1, p2];
    TransposeTwo(p1[0], p1[1]);
    TransposeTwo(p2[0], p2[1]);
    var t := TransposeBatch([p1, p2]);
    assert t == [TransposeFrame(p1), TransposeFrame(p2)];
  }

  /**
   * Reports of [(0,0,0), (1,0,0)], [(0,0,0), (2,0,0)] and [(0,0,0), (3,0,0)]:
   * one file, holding the first two frames, and the third frame buffered.
   */
  method PointCloudRun() returns (buffered: seq<seq<Vec3<int>>>, count: int, ghost log: seq<H5Batch<int>>)
    ensures count == 1 && buffered == [[Vec3(0, 0, 0), Vec3(3, 0, 0)]]
    ensures |log| == 1 && log[0].fileName == "traj.h5"
    ensures log[0].contactMap.None? && log[0].rmsd.None? && log[0].fractionOfContacts.None?
    ensures log[0].pointCloud == Some([[[0, 1], [0, 0], [0, 0]], [[0, 2], [0, 0], [0, 0]]])
  {
    var config := Config("traj", 1, 2, None, None, ["CA"], "protein and name CA", 8, false, true, false);
    var r := new OfflineReporter(config, Stub());
    var names := ["CA", "CA"];
    var p1, p2, p3 := [Vec3(0, 0, 0), Vec3(1, 0, 0)], [Vec3(0, 0, 0), Vec3(2, 0, 0)], [Vec3(0, 0, 0), Vec3(3, 0, 0)];
    SelectsBoth(r, p1);
    SelectsBoth(r, p2);
    SelectsBoth(r, p3);
    FirstBatch(r, p1, p2);
    ghost var b := r.BatchOf([Cloud(p1), Cloud(p2)]);
    assert [Cloud(p1)] + [Cloud(p2)] == [Cloud(p1), Cloud(p2)];
    var o1 := r.Report(names, p1);
    assert r.numFrames == 1 && r.pending == [Cloud(p1)] && r.written == [];
    var o2 := r.Report(names, p2);
    assert r.numFrames == 0 && r.written == [b];
    var o3 := r.Report(names, p3);
    assert r.numFrames == 1 && r.pending == [Cloud(p3)] && r.written == [b];
    assert [Cloud(p3)][..0] == [];
    assert r.pointCloudData == Batches.Collected([Cloud(p3)], CloudSlot) == [p3];
    buffered, count, log := r.pointCloudData, r.numFrames, r.written;
  }
}
