/**
 * `OfflineReporter` (mdtools/openmm/reporter.py): an OpenMM reporter that,
 * at every report, computes the enabled descriptors of the selected atoms,
 * appends one record per descriptor to in-memory buffers, and once
 * `frames_per_h5` frames are buffered writes them to `<base name>.h5` and
 * starts an empty batch.
 *
 * The analysis libraries the reporter calls (structure loading, periodic
 * wrapping, contact matrix, RMSD, fraction of contacts) are supplied as the
 * functions of an `Analysis` value; their floating-point results are values
 * of the opaque type R. The HDF5 writes become entries of a ghost log.
 */
module Reporter {
  import opened Wrappers
  import opened Frames
  import opened Contacts
  import opened Topology
  import opened Batches
  import opened Schedule

  /** The arguments of `OfflineReporter.__init__`. */
  datatype Config<R> = Config(
    file: string,
    reportInterval: int,
    framesPerH5: int,
    wrapPdbFile: Option<string>,
    referencePdbFile: Option<string>,
    openmmSelection: seq<string>,
    mdaSelection: string,
    threshold: R,
    contactMap: bool,
    pointCloud: bool,
    fractionOfContacts: bool)

  /** The configuration the keyword defaults give, for a file name, an interval and a threshold. */
  function DefaultConfig<R>(file: string, reportInterval: int, threshold: R): (c: Config<R>)
    ensures c.file == file && c.reportInterval == reportInterval && c.threshold == threshold
    ensures c.framesPerH5 == 0 && c.wrapPdbFile.None? && c.referencePdbFile.None?
    ensures c.openmmSelection == ["CA"] && c.mdaSelection == "protein and name CA"
    ensures c.contactMap && c.pointCloud && c.fractionOfContacts
  {
    Config(file, reportInterval, 0, None, None, ["CA"], "protein and name CA", threshold, true, true, true)
  }

  /** The two ValueErrors the constructor raises. */
  datatype ConfigError = FractionOfContactsNeedsReference | ContactMapNeedsReference

  /**
   * The constructor's validation: a feature that compares against the
   * reference structure needs a reference file; fraction of contacts is
   * checked first.
   */
  function ConfigCheck<R>(c: Config<R>): (r: Option<ConfigError>)
    ensures r.None? <==> c.referencePdbFile.Some? || (!c.fractionOfContacts && !c.contactMap)
    ensures r == Some(FractionOfContactsNeedsReference) <==>
      c.fractionOfContacts && c.referencePdbFile.None?
    ensures r == Some(ContactMapNeedsReference) <==>
      !c.fractionOfContacts && c.contactMap && c.referencePdbFile.None?
  {
    if c.fractionOfContacts && c.referencePdbFile.None? then Some(FractionOfContactsNeedsReference)
    else if c.contactMap && c.referencePdbFile.None? then Some(ContactMapNeedsReference)
    else None
  }

  /** With every keyword left at its default the constructor raises. */
  lemma DefaultConfigRejected<R>(file: string, reportInterval: int, threshold: R)
    ensures ConfigCheck(DefaultConfig(file, reportInterval, threshold)) == Some(FractionOfContactsNeedsReference)
  {}

  /** The library calls the reporter makes, as functions. */
  datatype Analysis<!R> = Analysis(
    // positions of `select_atoms(selection)` in the structure file (MDAnalysis.Universe)
    selectPositions: (string, string) -> seq<Vec3<R>>,
    // `wrap(atoms)` for the atoms selected in a structure file: re-centres a frame in its box
    wrapper: (string, string) -> (seq<Vec3<R>> -> seq<Vec3<R>>),
    // `distances.contact_matrix(positions, threshold, returntype="sparse")`
    contactMatrix: (seq<Vec3<R>>, R) -> SparseMatrix,
    // `rms.rmsd(positions, reference, superposition=True)`
    rmsd: (seq<Vec3<R>>, seq<Vec3<R>>) -> R,
    // `fraction_of_contacts(contact_map, reference_contact_map)`
    fractionOfContacts: (SparseMatrix, SparseMatrix) -> R)

  /** What one report adds to the batch: one value per enabled descriptor. */
  datatype Sample<R> = Sample(
    contact: Option<CooIndices>,
    cloud: Option<seq<Vec3<R>>>,
    rmsd: Option<R>,
    foc: Option<R>)

  function RowsSlot<R>(s: Sample<R>): Option<seq<int16>> {
    if s.contact.Some? then Some(s.contact.value.rows) else None
  }

  function ColsSlot<R>(s: Sample<R>): Option<seq<int16>> {
    if s.contact.Some? then Some(s.contact.value.cols) else None
  }

  function CloudSlot<R>(s: Sample<R>): Option<seq<Vec3<R>>> {
    s.cloud
  }

  function RmsdSlot<R>(s: Sample<R>): Option<R> {
    s.rmsd
  }

  function FocSlot<R>(s: Sample<R>): Option<R> {
    s.foc
  }

  /** The COO index arrays of a batch, one pair of arrays per frame. */
  datatype ContactSlots = ContactSlots(rows: seq<seq<int16>>, cols: seq<seq<int16>>)

  /** One write of an HDF5 file: its name and the datasets present in it. */
  datatype H5Batch<R> = H5Batch(
    fileName: string,
    contactMap: Option<ContactSlots>,
    pointCloud: Option<seq<seq<seq<R>>>>,
    rmsd: Option<seq<R>>,
    fractionOfContacts: Option<seq<R>>)

  /**
   * The files on disk after a log of writes: each write opens its file with
   * mode "w", so it replaces whatever that file held.
   */
  function OnDisk<R>(log: seq<H5Batch<R>>): (disk: map<string, H5Batch<R>>)
    ensures forall i :: 0 <= i < |log| ==> log[i].fileName in disk
    ensures forall n :: n in disk ==> disk[n] in log && disk[n].fileName == n
    ensures log != [] ==> disk[log[|log| - 1].fileName] == log[|log| - 1]
  {
    if log == [] then map[]
    else
      var front, last := log[..|log| - 1], log[|log| - 1];
      var before := OnDisk(front);
      assert log == front + [last];
      assert forall n :: n in before ==> before[n] in log;
      before[last.fileName := last]
  }

  /** log[i] is the last write to the file n. */
  predicate IsLastWrite<R>(log: seq<H5Batch<R>>, n: string, i: int) {
    0 <= i < |log| && log[i].fileName == n &&
    forall j :: i < j < |log| ==> log[j].fileName != n
  }

  /** The file n on disk holds the last write made to it. */
  lemma {:induction false} LastWriteOnDisk<R>(log: seq<H5Batch<R>>, n: string) returns (i: int)
    requires n in OnDisk(log)
    ensures IsLastWrite(log, n, i) && OnDisk(log)[n] == log[i]
  {
    var front, last := log[..|log| - 1], log[|log| - 1];
    assert OnDisk(log) == OnDisk(front)[last.fileName := last];
    if n == last.fileName {
      i := |log| - 1;
    } else {
      assert n in OnDisk(front);
      i := LastWriteOnDisk(front, n);
      assert log == front + [last];
    }
  }

  /** Each file on disk holds the last write made to its name. */
  lemma OnDiskLatest<R>(log: seq<H5Batch<R>>)
    ensures forall n :: n in OnDisk(log) ==> exists i :: IsLastWrite(log, n, i) && OnDisk(log)[n] == log[i]
  {
    forall n | n in OnDisk(log)
      ensures exists i :: IsLastWrite(log, n, i) && OnDisk(log)[n] == log[i]
    {
      var i := LastWriteOnDisk(log, n);
    }
  }

  /** Writes that all go to one file leave only the last of them on disk. */
  lemma {:induction false} SameFileKeepsLast<R>(log: seq<H5Batch<R>>, name: string)
    requires log != []
    requires forall i :: 0 <= i < |log| ==> log[i].fileName == name
    ensures OnDisk(log) == map[name := log[|log| - 1]]
  {
    if |log| > 1 {
      SameFileKeepsLast(log[..|log| - 1], name);
    }
  }

  class OfflineReporter<R> {
    // configuration, fixed at construction
    const baseName: string
    const reportInterval: int
    const framesPerH5: int
    const wrapPdbFile: Option<string>
    const referencePdbFile: Option<string>
    const openmmSelection: seq<string>
    const mdaSelection: string
    const threshold: R
    const contactMap: bool
    const pointCloud: bool
    const fractionOfContacts: bool
    const analysis: Analysis<R>
    // loaded at construction
    const referencePositions: Option<seq<Vec3<R>>>
    const referenceContactMap: Option<SparseMatrix>
    const wrap: Option<seq<Vec3<R>> -> seq<Vec3<R>>>

    // the batch being accumulated; a buffer whose feature is off is never
    // created by the source, and here stays empty
    var numFrames: int
    var rows: seq<seq<int16>>
    var cols: seq<seq<int16>>
    var rmsd: seq<R>
    var fractionOfContactsData: seq<R>
    var pointCloudData: seq<seq<Vec3<R>>>

    // the samples behind the buffers, the samples of every flushed batch,
    // and the log of HDF5 writes
    ghost var pending: seq<Sample<R>>
    ghost var flushed: seq<seq<Sample<R>>>
    ghost var written: seq<H5Batch<R>>

    /** A sample holds exactly the descriptors this reporter computes. */
    predicate Conforms(s: Sample<R>) {
      s.contact.Some? == contactMap &&
      s.cloud.Some? == pointCloud &&
      s.rmsd.Some? == referencePositions.Some? &&
      s.foc.Some? == fractionOfContacts &&
      (s.contact.Some? ==> |s.contact.value.rows| == |s.contact.value.cols|)
    }

    /** What construction established about the reference data. */
    predicate Configured() {
      (fractionOfContacts || contactMap ==> referencePdbFile.Some?) &&
      (referencePositions.Some? <==> referencePdbFile.Some?) &&
      (referenceContactMap.Some? <==> fractionOfContacts)
    }

    predicate AllConform(samples: seq<Sample<R>>) {
      forall k :: 0 <= k < |samples| ==> Conforms(samples[k])
    }

    /** The buffers are the columns of the samples p. */
    ghost predicate Buffers(p: seq<Sample<R>>)
      reads this`rows, this`cols, this`pointCloudData, this`rmsd, this`fractionOfContactsData
    {
      rows == Collected(p, RowsSlot) &&
      cols == Collected(p, ColsSlot) &&
      pointCloudData == Collected(p, CloudSlot) &&
      rmsd == Collected(p, RmsdSlot) &&
      fractionOfContactsData == Collected(p, FocSlot)
    }

    /** Each full group of samples `fl[i]` was written as the batch `wr[i]`. */
    ghost predicate WrittenAsBatches(fl: seq<seq<Sample<R>>>, wr: seq<H5Batch<R>>) {
      (fl != [] ==> framesPerH5 > 0) &&
      |wr| == |fl| &&
      forall i :: 0 <= i < |fl| ==>
        |fl[i]| == framesPerH5 && AllConform(fl[i]) && wr[i] == BatchOf(fl[i])
    }

    /** Every flush wrote the file of one full batch of samples. */
    ghost predicate FlushedBatches()
      reads this`flushed, this`written
    {
      WrittenAsBatches(flushed, written)
    }

    /** Writing a full group keeps every written batch accounted for. */
    lemma WrittenAsBatchesAppend(fl: seq<seq<Sample<R>>>, wr: seq<H5Batch<R>>, p: seq<Sample<R>>)
      requires WrittenAsBatches(fl, wr)
      requires framesPerH5 > 0 && |p| == framesPerH5 && AllConform(p)
      ensures WrittenAsBatches(fl + [p], wr + [BatchOf(p)])
    {
    }

    ghost predicate Valid()
      reads this
    {
      Configured() &&
      numFrames == |pending| && AllConform(pending) && Buffers(pending) &&
      (framesPerH5 > 0 ==> numFrames < framesPerH5) &&
      FlushedBatches()
    }

    /** Every sample reported so far, in the order of the report calls. */
    ghost function History(): seq<Sample<R>>
      reads this`flushed, this`pending
    {
      Flatten(flushed) + pending
    }

    /** `describeNextReport`: the scheduling arithmetic with this reporter's interval. */
    function DescribeNextReport(currentStep: int): (r: Result<ReportRequest, ScheduleError>)
      ensures r.Failure? <==> reportInterval == 0
      ensures reportInterval > 0 ==>
        r.Success? && 1 <= r.value.steps <= reportInterval && Multiple(currentStep + r.value.steps, reportInterval)
    {
      NextReportIsNextMultiple(currentStep, if reportInterval > 0 then reportInterval else 1);
      NextReport(currentStep, reportInterval)
    }

    /** The positions `report` extracts: those of the atoms whose name is selected. */
    function SelectedPositions(names: seq<string>, allPositions: seq<Vec3<R>>): (r: Option<seq<Vec3<R>>>)
      ensures r.None? <==> exists k :: |allPositions| <= k < |names| && names[k] in openmmSelection
      ensures r.Some? ==>
        var indices := SelectAtomIndices(names, openmmSelection);
        |r.value| == |indices| &&
        forall j :: 0 <= j < |indices| ==> names[indices[j]] in openmmSelection && r.value[j] == allPositions[indices[j]]
    {
      SelectedGatherFails(names, openmmSelection, allPositions);
      Gather(allPositions, SelectAtomIndices(names, openmmSelection))
    }

    /**
     * The descriptors of one frame. The contact map and the fraction of
     * contacts share one contact matrix; the point cloud keeps the positions
     * as extracted, while the RMSD is taken of the wrapped positions when a
     * wrapping structure is configured.
     */
    function Descriptors(positions: seq<Vec3<R>>): (s: Sample<R>)
      requires fractionOfContacts ==> referenceContactMap.Some?
      ensures Conforms(s)
    {
      var matrix := analysis.contactMatrix(positions, threshold);
      var rmsdInput := if wrap.Some? then wrap.value(positions) else positions;
      Sample(
        if contactMap then Some(ToCoo(matrix)) else None,
        if pointCloud then Some(positions) else None,
        if referencePositions.Some? then Some(analysis.rmsd(rmsdInput, referencePositions.value)) else None,
        if fractionOfContacts then Some(analysis.fractionOfContacts(matrix, referenceContactMap.value)) else None)
    }

    /** The file a flush of these samples writes. */
    function BatchOf(samples: seq<Sample<R>>): (b: H5Batch<R>)
      ensures b.fileName == baseName + ".h5"
      ensures b.contactMap.Some? == contactMap && b.pointCloud.Some? == pointCloud
      ensures b.rmsd.Some? == referencePositions.Some? && b.fractionOfContacts.Some? == fractionOfContacts
    {
      H5Batch(
        baseName + ".h5",
        if contactMap then Some(ContactSlots(Collected(samples, RowsSlot), Collected(samples, ColsSlot))) else None,
        if pointCloud then Some(TransposeBatch(Collected(samples, CloudSlot))) else None,
        if referencePositions.Some? then Some(Collected(samples, RmsdSlot)) else None,
        if fractionOfContacts then Some(Collected(samples, FocSlot)) else None)
    }

    /**
     * What the write block puts in `<base name>.h5`: the enabled buffers,
     * the point cloud transposed with axes [0, 2, 1].
     */
    ghost function BufferedBatch(): (b: H5Batch<R>)
      reads this`rows, this`cols, this`pointCloudData, this`rmsd, this`fractionOfContactsData
      ensures b.fileName == baseName + ".h5"
      ensures b.contactMap.Some? == contactMap && b.pointCloud.Some? == pointCloud
      ensures b.rmsd.Some? == referencePositions.Some? && b.fractionOfContacts.Some? == fractionOfContacts
      ensures b.pointCloud.Some? ==>
        |b.pointCloud.value| == |pointCloudData| &&
        forall f :: 0 <= f < |pointCloudData| ==>
          CoordinateMajor(b.pointCloud.value[f]) && |b.pointCloud.value[f][0]| == |pointCloudData[f]| &&
          forall c, a :: 0 <= c < 3 && 0 <= a < |pointCloudData[f]| ==>
            a < |b.pointCloud.value[f][c]| && b.pointCloud.value[f][c][a] == Coord(pointCloudData[f][a], c)
    {
      H5Batch(
        baseName + ".h5",
        if contactMap then Some(ContactSlots(rows, cols)) else None,
        if pointCloud then Some(TransposeBatch(pointCloudData)) else None,
        if referencePositions.Some? then Some(rmsd) else None,
        if fractionOfContacts then Some(fractionOfContactsData) else None)
    }

    lemma BufferedBatchIsBatchOf(p: seq<Sample<R>>)
      requires Buffers(p)
      ensures BufferedBatch() == BatchOf(p)
    {}

    /**
     * A written batch holds one entry per sample in its contact map, RMSD and
     * fraction-of-contacts datasets, in sample order.
     */
    lemma BatchContents(samples: seq<Sample<R>>)
      requires AllConform(samples)
      ensures var b := BatchOf(samples);
        contactMap ==>
          |b.contactMap.value.rows| == |samples| && |b.contactMap.value.cols| == |samples| &&
          forall f :: 0 <= f < |samples| ==>
            samples[f].contact.Some? &&
            b.contactMap.value.rows[f] == samples[f].contact.value.rows &&
            b.contactMap.value.cols[f] == samples[f].contact.value.cols
      ensures var b := BatchOf(samples);
        referencePositions.Some? ==>
          |b.rmsd.value| == |samples| &&
          forall f :: 0 <= f < |samples| ==> samples[f].rmsd.Some? && b.rmsd.value[f] == samples[f].rmsd.value
      ensures var b := BatchOf(samples);
        fractionOfContacts ==>
          |b.fractionOfContacts.value| == |samples| &&
          forall f :: 0 <= f < |samples| ==>
            samples[f].foc.Some? && b.fractionOfContacts.value[f] == samples[f].foc.value
    {
      if contactMap {
        CollectedAll(samples, RowsSlot);
        CollectedAll(samples, ColsSlot);
      }
      if referencePositions.Some? {
        CollectedAll(samples, RmsdSlot);
      }
      if fractionOfContacts {
        CollectedAll(samples, FocSlot);
      }
    }

    /**
     * A written batch holds one point cloud per sample, in sample order, each
     * in [coordinate, atom] layout.
     */
    lemma PointCloudContents(samples: seq<Sample<R>>)
      requires AllConform(samples)
      ensures var b := BatchOf(samples);
        pointCloud ==>
          |b.pointCloud.value| == |samples| &&
          forall f :: 0 <= f < |samples| ==>
            samples[f].cloud.Some? && CoordinateMajor(b.pointCloud.value[f]) &&
            |b.pointCloud.value[f][0]| == |samples[f].cloud.value| &&
            forall c, a :: 0 <= c < 3 && 0 <= a < |samples[f].cloud.value| ==>
              a < |b.pointCloud.value[f][c]| &&
              b.pointCloud.value[f][c][a] == Coord(samples[f].cloud.value[a], c)
    {
      if pointCloud {
        CollectedAll(samples, CloudSlot);
      }
    }

    /**
     * The column of an enabled descriptor has one entry per sample, and each
     * sample's row and column arrays have the same length.
     */
    lemma ColumnLengths(p: seq<Sample<R>>)
      requires AllConform(p)
      ensures contactMap ==> |Collected(p, RowsSlot)| == |p| && |Collected(p, ColsSlot)| == |p|
      ensures contactMap ==> forall f :: 0 <= f < |p| ==> |Collected(p, RowsSlot)[f]| == |Collected(p, ColsSlot)[f]|
      ensures pointCloud ==> |Collected(p, CloudSlot)| == |p|
      ensures referencePositions.Some? ==> |Collected(p, RmsdSlot)| == |p|
      ensures fractionOfContacts ==> |Collected(p, FocSlot)| == |p|
    {
      if contactMap {
        CollectedAll(p, RowsSlot);
        CollectedAll(p, ColsSlot);
        forall f | 0 <= f < |p| ensures |Collected(p, RowsSlot)[f]| == |Collected(p, ColsSlot)[f]| {
          assert Conforms(p[f]);
        }
      }
      if pointCloud {
        CollectedAll(p, CloudSlot);
      }
      if referencePositions.Some? {
        CollectedAll(p, RmsdSlot);
      }
      if fractionOfContacts {
        CollectedAll(p, FocSlot);
      }
    }

    /** The column of a disabled descriptor is empty. */
    lemma DisabledColumnsEmpty(p: seq<Sample<R>>)
      requires AllConform(p)
      ensures !contactMap ==> Collected(p, RowsSlot) == [] && Collected(p, ColsSlot) == []
      ensures !pointCloud ==> Collected(p, CloudSlot) == []
      ensures referencePositions.None? ==> Collected(p, RmsdSlot) == []
      ensures !fractionOfContacts ==> Collected(p, FocSlot) == []
    {
      if !contactMap {
        CollectedNone(p, RowsSlot);
        CollectedNone(p, ColsSlot);
      }
      if !pointCloud {
        CollectedNone(p, CloudSlot);
      }
      if referencePositions.None? {
        CollectedNone(p, RmsdSlot);
      }
      if !fractionOfContacts {
        CollectedNone(p, FocSlot);
      }
    }

    /** A conforming sample adds one entry to the column of every enabled descriptor. */
    lemma ColumnsAppend(p: seq<Sample<R>>, s: Sample<R>)
      requires AllConform(p) && Conforms(s)
      ensures AllConform(p + [s])
      ensures Collected(p + [s], RowsSlot) == Collected(p, RowsSlot) + (if contactMap then [s.contact.value.rows] else [])
      ensures Collected(p + [s], ColsSlot) == Collected(p, ColsSlot) + (if contactMap then [s.contact.value.cols] else [])
      ensures Collected(p + [s], CloudSlot) == Collected(p, CloudSlot) + (if pointCloud then [s.cloud.value] else [])
      ensures Collected(p + [s], RmsdSlot) ==
        Collected(p, RmsdSlot) + (if referencePositions.Some? then [s.rmsd.value] else [])
      ensures Collected(p + [s], FocSlot) == Collected(p, FocSlot) + (if fractionOfContacts then [s.foc.value] else [])
    {
      CollectedAppend(p, s, RowsSlot);
      CollectedAppend(p, s, ColsSlot);
      CollectedAppend(p, s, CloudSlot);
      CollectedAppend(p, s, RmsdSlot);
      CollectedAppend(p, s, FocSlot);
    }

    /**
     * Between reports every enabled buffer holds one entry per buffered
     * frame, every disabled one is empty, and each frame's row and column
     * arrays have the same length.
     */
    lemma BufferLengths()
      requires Valid()
      ensures contactMap ==> |rows| == numFrames && |cols| == numFrames
      ensures contactMap ==> forall f :: 0 <= f < numFrames ==> |rows[f]| == |cols[f]|
      ensures !contactMap ==> rows == [] && cols == []
      ensures pointCloud ==> |pointCloudData| == numFrames
      ensures !pointCloud ==> pointCloudData == []
      ensures referencePdbFile.Some? ==> |rmsd| == numFrames
      ensures referencePdbFile.None? ==> rmsd == []
      ensures fractionOfContacts ==> |fractionOfContactsData| == numFrames
      ensures !fractionOfContacts ==> fractionOfContactsData == []
    {
      ColumnLengths(pending);
      DisabledColumnsEmpty(pending);
    }

    /**
     * Every report is either in a written batch or buffered: with a positive
     * batch size the files written so far are the number of reports divided
     * by it, and the buffered frames the remainder; otherwise nothing is
     * ever written.
     */
    lemma FramesAccounted()
      requires Valid()
      ensures |History()| == |written| * framesPerH5 + numFrames
      ensures framesPerH5 <= 0 ==> written == [] && numFrames == |History()|
      ensures framesPerH5 > 0 ==>
        |written| == |History()| / framesPerH5 && numFrames == |History()| % framesPerH5
    {
      FlattenLength(flushed, framesPerH5);
      if framesPerH5 > 0 {
        DivModUnique(|History()|, |written|, framesPerH5, numFrames);
      }
    }

    /** All flushes write the same file, so only the latest batch is on disk. */
    lemma OnlyLastBatchOnDisk()
      requires Valid() && written != []
      ensures OnDisk(written) == map[baseName + ".h5" := written[|written| - 1]]
    {
      forall i | 0 <= i < |written| ensures written[i].fileName == baseName + ".h5" {
        assert written[i] == BatchOf(flushed[i]);
      }
      SameFileKeepsLast(written, baseName + ".h5");
    }

    /** `__init__` with a configuration that passes the validation. */
    constructor (config: Config<R>, analysis: Analysis<R>)
      requires ConfigCheck(config).None?
      ensures Valid()
      ensures baseName == config.file && reportInterval == config.reportInterval
      ensures framesPerH5 == config.framesPerH5 && wrapPdbFile == config.wrapPdbFile
      ensures referencePdbFile == config.referencePdbFile && openmmSelection == config.openmmSelection
      ensures mdaSelection == config.mdaSelection && threshold == config.threshold
      ensures contactMap == config.contactMap && pointCloud == config.pointCloud
      ensures fractionOfContacts == config.fractionOfContacts && this.analysis == analysis
      ensures referencePositions ==
        if config.referencePdbFile.Some?
        then Some(analysis.selectPositions(config.referencePdbFile.value, config.mdaSelection))
        else None
      ensures referenceContactMap ==
        if config.fractionOfContacts
        then Some(analysis.contactMatrix(
          analysis.selectPositions(config.referencePdbFile.value, config.mdaSelection), config.threshold))
        else None
      ensures wrap ==
        if config.wrapPdbFile.Some?
        then Some(analysis.wrapper(config.wrapPdbFile.value, config.mdaSelection))
        else None
      ensures numFrames == 0 && History() == [] && written == []
      ensures rows == [] && cols == [] && pointCloudData == [] && rmsd == [] && fractionOfContactsData == []
    {
      baseName := config.file;
      reportInterval := config.reportInterval;
      framesPerH5 := config.framesPerH5;
      wrapPdbFile := config.wrapPdbFile;
      referencePdbFile := config.referencePdbFile;
      openmmSelection := config.openmmSelection;
      mdaSelection := config.mdaSelection;
      threshold := config.threshold;
      contactMap := config.contactMap;
      pointCloud := config.pointCloud;
      fractionOfContacts := config.fractionOfContacts;
      this.analysis := analysis;
      referencePositions :=
        if config.referencePdbFile.Some?
        then Some(analysis.selectPositions(config.referencePdbFile.value, config.mdaSelection))
        else None;
      referenceContactMap :=
        if config.fractionOfContacts
        then Some(analysis.contactMatrix(
          analysis.selectPositions(config.referencePdbFile.value, config.mdaSelection), config.threshold))
        else None;
      wrap :=
        if config.wrapPdbFile.Some?
        then Some(analysis.wrapper(config.wrapPdbFile.value, config.mdaSelection))
        else None;
      rows, cols, rmsd, fractionOfContactsData, pointCloudData := [], [], [], [], [];
      pending, flushed, written := [], [], [];
      new;
      InitBatch();
    }

    /**
     * `__init__` as the caller sees it: the ValueError of the validation, or
     * a new reporter with an empty batch.
     */
    static method Create(config: Config<R>, analysis: Analysis<R>) returns (r: Result<OfflineReporter<R>, ConfigError>)
      ensures r.Failure? <==> ConfigCheck(config).Some?
      ensures r.Failure? ==> r.error == ConfigCheck(config).value
      ensures r.Success? ==> fresh(r.value) && r.value.Valid()
      ensures r.Success? ==>
        r.value.baseName == config.file && r.value.reportInterval == config.reportInterval &&
        r.value.framesPerH5 == config.framesPerH5 && r.value.wrapPdbFile == config.wrapPdbFile &&
        r.value.referencePdbFile == config.referencePdbFile && r.value.openmmSelection == config.openmmSelection &&
        r.value.mdaSelection == config.mdaSelection && r.value.threshold == config.threshold &&
        r.value.contactMap == config.contactMap && r.value.pointCloud == config.pointCloud &&
        r.value.fractionOfContacts == config.fractionOfContacts && r.value.analysis == analysis
      ensures r.Success? ==>
        r.value.referencePositions ==
          if config.referencePdbFile.Some?
          then Some(analysis.selectPositions(config.referencePdbFile.value, config.mdaSelection))
          else None
      ensures r.Success? ==>
        r.value.referenceContactMap ==
          if config.fractionOfContacts
          then Some(analysis.contactMatrix(
            analysis.selectPositions(config.referencePdbFile.value, config.mdaSelection), config.threshold))
          else None
      ensures r.Success? ==>
        r.value.wrap ==
          if config.wrapPdbFile.Some?
          then Some(analysis.wrapper(config.wrapPdbFile.value, config.mdaSelection))
          else None
      ensures r.Success? ==> r.value.numFrames == 0 && r.value.History() == [] && r.value.written == []
      ensures r.Success? ==>
        r.value.rows == [] && r.value.cols == [] && r.value.pointCloudData == [] &&
        r.value.rmsd == [] && r.value.fractionOfContactsData == []
    {
      var check := ConfigCheck(config);
      if check.Some? {
        return Failure(check.value);
      }
      var reporter := new OfflineReporter(config, analysis);
      return Success(reporter);
    }

    /** `_init_batch`: zero the counter and empty the buffer of every enabled feature. */
    method InitBatch()
      modifies this`numFrames, this`rows, this`cols, this`rmsd, this`fractionOfContactsData
      modifies this`pointCloudData, this`pending
      ensures numFrames == 0 && pending == []
      ensures contactMap ==> rows == [] && cols == []
      ensures !contactMap ==> rows == old(rows) && cols == old(cols)
      ensures referencePdbFile.Some? ==> rmsd == []
      ensures referencePdbFile.None? ==> rmsd == old(rmsd)
      ensures fractionOfContacts ==> fractionOfContactsData == []
      ensures !fractionOfContacts ==> fractionOfContactsData == old(fractionOfContactsData)
      ensures pointCloud ==> pointCloudData == []
      ensures !pointCloud ==> pointCloudData == old(pointCloudData)
    {
      numFrames := 0;
      if contactMap {
        rows, cols := [], [];
      }
      if referencePdbFile.Some? {
        rmsd := [];
      }
      if fractionOfContacts {
        fractionOfContactsData := [];
      }
      if pointCloud {
        pointCloudData := [];
      }
      pending := [];
    }

    /** `_collect_contact_map`: append the frame's COO row and column arrays. */
    method CollectContactMap(matrix: SparseMatrix)
      modifies this`rows, this`cols
      ensures rows == old(rows) + [ToCoo(matrix).rows]
      ensures cols == old(cols) + [ToCoo(matrix).cols]
    {
      var coo := ToCoo(matrix);
      rows := rows + [coo.rows];
      cols := cols + [coo.cols];
    }

    /** `_collect_fraction_of_contacts`: append the frame's fraction of the reference contacts. */
    method CollectFractionOfContacts(matrix: SparseMatrix)
      requires referenceContactMap.Some?
      modifies this`fractionOfContactsData
      ensures fractionOfContactsData ==
        old(fractionOfContactsData) + [analysis.fractionOfContacts(matrix, referenceContactMap.value)]
    {
      fractionOfContactsData := fractionOfContactsData + [analysis.fractionOfContacts(matrix, referenceContactMap.value)];
    }

    /** `_collect_point_cloud`: append the frame's positions as extracted. */
    method CollectPointCloud(positions: seq<Vec3<R>>)
      modifies this`pointCloudData
      ensures pointCloudData == old(pointCloudData) + [positions]
    {
      pointCloudData := pointCloudData + [positions];
    }

    /** `_collect_rmsd`: append the RMSD of the (wrapped, if configured) positions to the reference. */
    method CollectRmsd(positions: seq<Vec3<R>>)
      requires referencePositions.Some?
      modifies this`rmsd
      ensures rmsd == old(rmsd) +
        [analysis.rmsd(if wrap.Some? then wrap.value(positions) else positions, referencePositions.value)]
    {
      var rmsdInput := positions;
      if wrap.Some? {
        rmsdInput := wrap.value(rmsdInput);
      }
      rmsd := rmsd + [analysis.rmsd(rmsdInput, referencePositions.value)];
    }

    /**
     * The accumulation step of `report`: compute the contact matrix if a
     * feature needs it, append to every enabled buffer, count the frame.
     */
    method Collect(positions: seq<Vec3<R>>)
      requires Configured()
      modifies this`rows, this`cols, this`fractionOfContactsData, this`pointCloudData, this`rmsd
      modifies this`numFrames
      ensures numFrames == old(numFrames) + 1
      ensures var s := Descriptors(positions);
        rows == old(rows) + (if contactMap then [s.contact.value.rows] else []) &&
        cols == old(cols) + (if contactMap then [s.contact.value.cols] else [])
      ensures var s := Descriptors(positions);
        pointCloudData == old(pointCloudData) + (if pointCloud then [s.cloud.value] else [])
      ensures var s := Descriptors(positions);
        rmsd == old(rmsd) + (if referencePositions.Some? then [s.rmsd.value] else [])
      ensures var s := Descriptors(positions);
        fractionOfContactsData == old(fractionOfContactsData) + (if fractionOfContacts then [s.foc.value] else [])
    {
      if contactMap || fractionOfContacts {
        var matrix := analysis.contactMatrix(positions, threshold);
        if contactMap {
          CollectContactMap(matrix);
        }
        if fractionOfContacts {
          CollectFractionOfContacts(matrix);
        }
      }
      if pointCloud {
        CollectPointCloud(positions);
      }
      if referencePositions.Some? {
        CollectRmsd(positions);
      }
      numFrames := numFrames + 1;
    }

    /** `Collect`, with the bookkeeping of the sample it adds. */
    method Accumulate(positions: seq<Vec3<R>>)
      requires Configured() && numFrames == |pending| && AllConform(pending) && Buffers(pending)
      modifies this`rows, this`cols, this`fractionOfContactsData, this`pointCloudData, this`rmsd
      modifies this`numFrames, this`pending
      ensures pending == old(pending) + [Descriptors(positions)]
      ensures numFrames == old(numFrames) + 1 == |pending| && AllConform(pending) && Buffers(pending)
    {
      ghost var s := Descriptors(positions);
      Collect(positions);
      ColumnsAppend(pending, s);
      pending := pending + [s];
    }

    /**
     * The write of `report`: open `<base name>.h5`, write the enabled
     * datasets (the point cloud transposed with axes [0, 2, 1]), then
     * `_init_batch`.
     */
    method Flush()
      requires Configured() && AllConform(pending) && Buffers(pending) && FlushedBatches()
      requires framesPerH5 > 0 && |pending| == framesPerH5
      modifies this`written, this`flushed
      modifies this`numFrames, this`rows, this`cols, this`rmsd, this`fractionOfContactsData
      modifies this`pointCloudData, this`pending
      ensures Valid()
      ensures written == old(written) + [BatchOf(old(pending))]
      ensures flushed == old(flushed) + [old(pending)] && History() == old(History())
      ensures numFrames == 0 && pending == []
    {
      // the buffers of disabled features are empty already
      DisabledColumnsEmpty(pending);
      WriteBatch();
      InitBatch();
    }

    /** The `h5py.File` block of `report`: the buffers go to disk as one batch. */
    method WriteBatch()
      requires AllConform(pending) && Buffers(pending) && FlushedBatches()
      requires framesPerH5 > 0 && |pending| == framesPerH5
      modifies this`written, this`flushed
      ensures FlushedBatches()
      ensures written == old(written) + [BatchOf(pending)]
      ensures flushed == old(flushed) + [pending] && Flatten(flushed) == old(History())
    {
      BufferedBatchIsBatchOf(pending);
      WrittenAsBatchesAppend(flushed, written, pending);
      FlattenAppend(flushed, pending);
      written, flushed := written + [BufferedBatch()], flushed + [pending];
    }

    /**
     * `report`: extract the selected atoms' positions, append one record to
     * every enabled buffer, count the frame, and when the count reaches
     * `frames_per_h5` write the batch and start an empty one. A selected atom
     * beyond the supplied positions is numpy's IndexError, raised before
     * anything changes.
     */
    method Report(names: seq<string>, allPositions: seq<Vec3<R>>) returns (outcome: Outcome<ReportError>)
      requires Valid()
      modifies this
      ensures Valid()
      ensures outcome.Fail? <==> exists k :: |allPositions| <= k < |names| && names[k] in openmmSelection
      ensures outcome.Fail? ==> outcome.error == IndexError && unchanged(this)
      ensures outcome.Pass? ==> SelectedPositions(names, allPositions).Some?
      ensures outcome.Pass? ==>
        var s := Descriptors(SelectedPositions(names, allPositions).value);
        History() == old(History()) + [s] &&
        if old(numFrames) + 1 == framesPerH5 then
          written == old(written) + [BatchOf(old(pending) + [s])] && numFrames == 0 && pending == []
        else
          written == old(written) && numFrames == old(numFrames) + 1 && pending == old(pending) + [s]
    {
      SelectedGatherFails(names, openmmSelection, allPositions);
      var atomIndices := SelectAtomIndices(names, openmmSelection);
      var selected := Gather(allPositions, atomIndices);
      if selected.None? {
        return Fail(IndexError);
      }
      var positions := selected.value;
      FlattenAppend(flushed, pending + [Descriptors(positions)]);
      Accumulate(positions);
      if numFrames == framesPerH5 {
        Flush();
      }
      return Pass;
    }
  }

  /** The error `report` can raise. */
  datatype ReportError = IndexError
}
