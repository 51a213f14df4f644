# OfflineReporter, modelled in Dafny

This project models `OfflineReporter` from `mdtools/openmm/reporter.py`. It is an
OpenMM reporter that runs inside a molecular-dynamics simulation and samples it
every `reportInterval` steps. On each report it does the following:

- picks the atoms whose name is in `openmm_selection`;
- computes the enabled descriptors of that frame:
  - the contact map, as COO row and column arrays of numpy `int16`;
  - the point cloud;
  - the RMSD to a reference structure, taken of the periodically wrapped
    positions when a wrapping structure is configured;
  - the fraction of the reference contacts;
- appends one record per descriptor to an in-memory buffer.

When `frames_per_h5` frames are buffered, it writes them to `<file>.h5`, with the
point cloud transposed from [frame, atom, coordinate] to
[frame, coordinate, atom]. It then starts an empty batch.

The project has these modules:

- `Schedule`: `describeNextReport`, using Python's floor `%` and its
  ZeroDivisionError.
- `Topology`: the atom-name selection, and numpy fancy indexing with its
  IndexError.
- `Contacts`: the COO arrays and the `int16` narrowing.
- `Frames`: the [0, 2, 1] transpose.
- `Reporter`: the configuration check, plus the class `OfflineReporter`. Its
  buffers are `seq` fields that its methods reassign. `_init_batch`, the
  `_collect_*` helpers and `report` are methods with `modifies` clauses; the
  constructor sets the fields and starts an empty batch.
- `Batches`: shared sequence lemmas.
- `Arith`: shared arithmetic lemmas.
- `Scenario`: a complete run of the reporter on concrete frames.

The class keeps three ghost fields beside its buffers:

- `pending`: the samples behind the current buffers.
- `flushed`: the sample groups of every batch written so far.
- `written`: the log of HDF5 writes, each entry holding a file name and the
  datasets of that write.

`History()` is every sample reported so far, in call order. `Valid()` ties the
buffers to `pending`, and `written` to `flushed`. `BatchOf` states what a flush
of given samples writes.

The library calls are fields of an `Analysis` value, all total functions, and
floating-point results are values of a type parameter `R`. These calls are:

- `MDAnalysis.Universe(...).select_atoms(...).positions`;
- the `wrap` closure;
- `distances.contact_matrix`;
- `rms.rmsd`;
- `fraction_of_contacts`.

The accessor `simulation.topology.atoms()` becomes the sequence of atom names;
an atom's index is its position in that sequence. `state.getPositions()` becomes
the sequence of all positions.

Two behaviours of the code that the model keeps:

- `_init_reference_positions` (mdtools/openmm/reporter.py:80-89) does not check
  that the selection matches an atom, and neither does the model.
- There is no manual flush: with `frames_per_h5 <= 0` nothing is ever written
  (`FramesAccounted`).

## Model

| member | source | states |
|---|---|---|
| Schedule.PyMod | mdtools/openmm/reporter.py:127 | Python's `%`: the remainder lies in [0, b) for a positive divisor and in (b, 0] for a negative one, and a − r is a multiple of b |
| Schedule.NextReport | mdtools/openmm/reporter.py:126-128 | raises ZeroDivisionError exactly when the interval is 0; otherwise currentStep + steps is a multiple of the interval; requests positions only (no velocities, forces or energies) and leaves periodic-box wrapping to the engine (sixth element None) |
| Reporter.OfflineReporter.DescribeNextReport | mdtools/openmm/reporter.py:126-128 | the reporter's own interval drives the schedule: ZeroDivisionError exactly when it is 0, otherwise the next report comes after 1 to interval steps and lands on a multiple of the interval |
| Schedule.NextReportIsNextMultiple | mdtools/openmm/reporter.py:126-128 | for a positive interval the step count is in [1, interval], and no step strictly between now and the next report is a multiple of the interval: the next report falls on the next multiple |
| Topology.SelectAtomIndices | mdtools/openmm/reporter.py:158-162 | every returned index is an atom whose name is selected; every such atom's index is returned; the indices are strictly increasing (topology order) |
| Topology.Gather | mdtools/openmm/reporter.py:164 | `all_positions[atom_indices]` is defined iff every index is in range, and then holds `all[indices[j]]` at position j |
| Topology.SelectedGatherFails | mdtools/openmm/reporter.py:158-164 | the IndexError occurs exactly when some selected atom lies beyond the positions supplied |
| Contacts.ToInt16 | mdtools/openmm/reporter.py:146-147 | `astype("int16")` keeps the value modulo 2^16 and is the identity on values in [−32768, 32768) |
| Contacts.ToCoo | mdtools/openmm/reporter.py:145-147 | the row and column arrays have one element per true entry, the k-th being the int16 cast of the k-th entry's row and column |
| Contacts.CooRoundTrip | mdtools/openmm/reporter.py:145-147 | when every index fits in int16, the stored COO arrays give back the contact matrix |
| Contacts.NarrowingWraps | mdtools/openmm/reporter.py:146-147 | an atom index in [32768, 65536) is stored as that index − 65536, a negative number |
| Frames.TransposeFrame | mdtools/openmm/reporter.py:190-192 | the stored frame has 3 rows of one entry per atom, and entry [c][a] is coordinate c of atom a |
| Frames.TransposeRoundTrip | mdtools/openmm/reporter.py:190-192 | reading a stored frame back gives the collected frame |
| Frames.UntransposeRoundTrip | mdtools/openmm/reporter.py:190-192 | every [coordinate, atom] array is the transpose of the frame read from it |
| Frames.TransposeBatch | mdtools/openmm/reporter.py:189-193 | `np.transpose(..., [0, 2, 1])`: one stored frame per collected frame, with stored[f][c][a] equal to coordinate c of atom a in frame f |
| Reporter.ConfigCheck | mdtools/openmm/reporter.py:55-60 | construction is accepted iff a reference file is given or neither fraction of contacts nor contact map is on; the fraction-of-contacts error is raised when that feature lacks a reference, otherwise the contact-map error when that one does |
| Reporter.DefaultConfigRejected | mdtools/openmm/reporter.py:44-60 | with every keyword at its default, construction raises the fraction-of-contacts error |
| Reporter.SameFileKeepsLast | mdtools/openmm/reporter.py:182-184 | writes with mode "w" to one file name leave only the last write on disk |
| Reporter.DefaultConfig | mdtools/openmm/reporter.py:40-53 | the keyword defaults: no batch size (0), no wrap or reference file, selection ["CA"] and "protein and name CA", all three features on |
| Reporter.OnDisk | mdtools/openmm/reporter.py:184 | every file named in the write log is on disk, each holding a write made to that name, and the last write's file holds that write |
| Reporter.LastWriteOnDisk | mdtools/openmm/reporter.py:184 | a file on disk holds a write to its name after which that name is never written again: opening with mode "w" replaces the file, so the latest write wins |
| Reporter.OnDiskLatest | mdtools/openmm/reporter.py:184 | every file on disk holds the latest write made to its name |
| Reporter.OfflineReporter.SelectedPositions | mdtools/openmm/reporter.py:158-164 | undefined (IndexError) exactly when a selected atom lies beyond the positions; otherwise one position per selected atom, in topology order, each the position of that atom |
| Reporter.OfflineReporter.BufferedBatch | mdtools/openmm/reporter.py:182-200 | the write block's output from the live buffers: `<file>.h5`, a dataset for exactly the enabled descriptors, and the point cloud with one 3-row [coordinate, atom] array per buffered frame, each row exactly as long as that frame, entry [f][c][a] equal to coordinate c of atom a in buffered frame f |
| Reporter.OfflineReporter.constructor | mdtools/openmm/reporter.py:40-98 | every setting is the argument's; the reference positions, reference contact map and wrap closure are what the loaders return, or absent when their file or feature is off; the batch is empty and nothing is written |
| Reporter.OfflineReporter.Create | mdtools/openmm/reporter.py:55-78 | fails with the validation's error exactly when it rejects; otherwise a fresh, valid reporter holding every setting given, the loaded reference positions, reference contact map and wrap closure, an empty batch and no writes |
| Reporter.OfflineReporter.InitBatch | mdtools/openmm/reporter.py:109-124 | zeroes the counter and empties exactly the buffers of enabled features, leaving the others as they are |
| Reporter.OfflineReporter.CollectContactMap | mdtools/openmm/reporter.py:143-147 | appends the frame's COO row array to `rows` and its column array to `cols` |
| Reporter.OfflineReporter.CollectFractionOfContacts | mdtools/openmm/reporter.py:149-152 | appends the fraction of the reference contacts present in the frame |
| Reporter.OfflineReporter.CollectPointCloud | mdtools/openmm/reporter.py:154-155 | appends the frame's positions |
| Reporter.OfflineReporter.CollectRmsd | mdtools/openmm/reporter.py:130-135 | appends the RMSD to the reference of the wrapped positions when a wrap closure exists, of the raw positions otherwise |
| Reporter.OfflineReporter.Descriptors | mdtools/openmm/reporter.py:130-177 | a frame's record holds exactly the enabled descriptors (RMSD exactly when a reference is loaded), with row and column arrays of equal length |
| Reporter.OfflineReporter.Collect | mdtools/openmm/reporter.py:166-179 | bumps the counter by one and appends the frame's descriptor to the end of each enabled buffer, leaving disabled buffers and earlier entries unchanged |
| Reporter.OfflineReporter.Accumulate | mdtools/openmm/reporter.py:166-179 | after the append, the buffers are the columns of the previous samples plus the new one, and the counter equals the number of buffered samples |
| Reporter.OfflineReporter.BatchOf | mdtools/openmm/reporter.py:181-200 | a flush writes `<file>.h5`, with a dataset for exactly the enabled descriptors |
| Reporter.OfflineReporter.BatchContents | mdtools/openmm/reporter.py:186-200 | the written contact map, RMSD and fraction-of-contacts datasets hold one entry per buffered frame, in report order |
| Reporter.OfflineReporter.PointCloudContents | mdtools/openmm/reporter.py:189-193 | the written point cloud holds one [coordinate, atom] array per buffered frame, in report order, of exactly 3 rows of that frame's atom count, with written[f][c][a] equal to coordinate c of atom a in frame f |
| Reporter.OfflineReporter.BufferLengths | mdtools/openmm/reporter.py:109-179 | between reports every enabled buffer has one entry per counted frame, `rows` and `cols` grow together frame by frame, and the buffers of disabled features are empty |
| Reporter.OfflineReporter.FramesAccounted | mdtools/openmm/reporter.py:179-181 | with a positive batch size, the writes so far equal reports ÷ batch size and the counter equals reports mod batch size; with a batch size ≤ 0 nothing is ever written |
| Reporter.OfflineReporter.OnlyLastBatchOnDisk | mdtools/openmm/reporter.py:181-184 | every flush targets `<file>.h5`, so only the latest batch is on disk |
| Reporter.OfflineReporter.WriteBatch | mdtools/openmm/reporter.py:184-200 | the write log grows by the batch of the buffered samples |
| Reporter.OfflineReporter.Flush | mdtools/openmm/reporter.py:181-202 | writes the batch of exactly the buffered samples, then resets: counter 0, every buffer empty; no reported sample is lost from the history |
| Reporter.OfflineReporter.Report | mdtools/openmm/reporter.py:157-202 | raises IndexError, changing nothing, exactly when a selected atom is beyond the positions. Otherwise it adds the frame's descriptors to the history. If the incremented counter equals the batch size, it writes the batch of the last `frames_per_h5` samples in order and resets. If not, it only appends and counts. It keeps `Valid()` |
| Scenario.PointCloudRun | mdtools/openmm/reporter.py:157-202 | point cloud only, two frames per file, three reports of a two-atom frame: one file holding the first two frames in [frame, coordinate, atom] layout, and the third frame buffered |

## Left out

- The `wrap` closure (mdtools/openmm/reporter.py:20-36) is left out. It does floating-point recentring and periodic wrapping inside MDAnalysis, so it is a function supplied in `Analysis`.
- `distances.contact_matrix`, `rms.rmsd` and `fraction_of_contacts` are supplied functions of unknown result. They are floating-point numerics in external libraries, and `mdtools.analysis.order_parameters` is not part of this model. The contact map's symmetry, RMSD invariance and the [0, 1] range of the fraction of contacts are therefore not stated.
- The library calls are assumed to return. In the source, `rms.rmsd` raises when the selected and reference positions differ in shape, since `openmm_selection` and `mda_selection` are independent. The wrap closure's position assignment (mdtools/openmm/reporter.py:23) raises the same way. Both run at mdtools/openmm/reporter.py:177, after the contact-map and point-cloud appends (169, 174) and before the counter is bumped (179). Such an exception leaves the source's buffers of unequal length, which the model, and so `BufferLengths`, does not capture.
- `MDAnalysis.Universe` loading is one supplied function from (file, selection) to positions. File errors are not modelled.
- `value_in_unit(u.angstrom)` and `astype(np.float32)` are left out. The supplied positions are taken to be in Å already, and precision reduction is not modelled.
- `h5py.File` and the `write_*` writers (`mdtools.writers` is not part of this model) are modelled only as the ghost write log. An I/O failure during a write is not modelled.
- Reporter.OfflineReporter.BatchOf transposes each frame on its own, so it does not capture numpy's failure on a ragged point-cloud list. That failure happens if the selection's size changes between reports.
- `self._file_idx` is set but never read by the source, so it is not modelled.
- The reporter drops the frames of a final, incomplete batch. The model does not add a final flush; `FramesAccounted` states how many frames remain unwritten.
- `mdtools/equilibrate.py` is not part of this model. It is simulation setup and file I/O.
