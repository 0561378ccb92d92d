# CILViewer downsampling bookkeeping, modelled in Dafny

CILViewer lets a user view 3D images that are too large for memory. It
downsamples them to a size budget, one slab of slices at a time. This project
models the index and shape bookkeeping around that, plus the dialogs and the
command-line front end that collect the reader's parameters. It covers:

- `calculate_target_downsample_shape`, the helper both resampler tests use to
  predict the output shape, with the shape, extent and size arithmetic the
  tests do around it (`downsample_shape.dfy`);
- the work-in-progress script `read_chunks1.py`: the element type lookup, the
  shape reordering, the slab boundaries, the target shape, the byte offset of
  each slab and the loop that writes one resampled plane per boundary
  (`read_chunks.dfy`);
- the non-widget logic of the raw and HDF5 input dialogs. This covers
  navigating HDF5 group paths and building the attribute dictionaries
  (`dialogs.dfy`);
- the `resample` command's parameter shaping. Every YAML value goes through
  `eval`, the `array` section is split into raw attributes and a dataset name,
  and the reader's arguments are collected (`resample_cli.dfy`);
- the few Python built-ins these rely on: `int()` of a float, `range` with a
  positive step, `[::-1]` and the ceiling division (`builtins.dfy`), plus the
  `Option`/`Result` wrappers (`wrappers.dfy`).

The magnification `m` is the value that `np.power(max_size/total_size, 1/3)`
(or `1/2` for acquisition data) produces. It is taken as an exact positive
real input. `DownsampleShape.MagnificationFor` states its relation to the
budget. Python exceptions become `Failure` values of a `Result`. Widgets are
abstracted to their values. Questions asked of an HDF5 file become boolean
parameters. `eval` and the VTK reslice step are opaque function parameters.

Two behaviours of the helper are worth stating outright:

- The helper does not clamp `m` to 1. With a budget larger than the image in
  the general mode, `int(1/m)` is 0 and `range(0, n, 0)` raises. The model
  returns `Failure(ZeroRangeStep)` there.
- For an empty slab axis the helper still reports one slab.

## Model

| member | source | states |
|---|---|---|
| Builtins.IntOf | Wrappers/Python/test/test_vtk_image_resampler.py:10 | `int()` of a float truncates toward zero: the result is the greatest integer not above a non-negative input and the least not below a negative one |
| Builtins.Range | Wrappers/Python/test/test_vtk_image_resampler.py:14-15 | `range(start, stop, step)` is empty when `start >= stop`; element `k` is `start + k*step`; the last element is the last one below `stop` |
| Builtins.RangeLength | Wrappers/Python/test/test_vtk_image_resampler.py:14-15 | `range(start, stop, step)` has `ceil((stop - start) / step)` elements, or none |
| Builtins.Reversed | Wrappers/Python/wip/read_chunks1.py:42 | `[::-1]` keeps the length and puts element `i` at position `len - 1 - i` |
| DownsampleShape.SlicesPerChunk | Wrappers/Python/test/test_vtk_image_resampler.py:8-12 | one slice per chunk for acquisition data; otherwise `int(1/m)`, which is at least 1 exactly when `m <= 1` |
| DownsampleShape.NumChunksIsCeil | Wrappers/Python/test/test_vtk_image_resampler.py:14-15 | for a non-empty slab axis, `1 + len(range(s, n, s))` is `ceil(n / s)` |
| DownsampleShape.CalculateTargetDownsampleShape | Wrappers/Python/test/test_vtk_image_resampler.py:7-19 | fails exactly for general-mode `m > 1`; in-plane sizes are `m * size` truncated and never grow for `m <= 1`; the slab axis becomes `ceil(n / s)` slabs, or 1 slab when it is empty |
| DownsampleShape.UnitMagnificationIsIdentity | Wrappers/Python/test/test_vtk_image_resampler.py:56-63 | for a non-empty slab axis and `m == 1` the helper gives back the source shape, in both modes |
| DownsampleShape.EmptySlabAxisGivesOneSlab | Wrappers/Python/test/test_vtk_image_resampler.py:14-15 | a zero-length slab axis yields one output slab |
| DownsampleShape.AcquisitionKeepsSlabAxis | Wrappers/Python/test/test_cli_resample.py:26-30 | for acquisition data the helper never fails and, for a non-empty slab axis, keeps the slab (angle) axis length |
| DownsampleShape.BudgetDecidesStride | Wrappers/Python/test/test_vtk_image_resampler.py:9-15 | in general mode the stride is at least 1 exactly when the budget does not exceed the source size; for every shape, the helper fails exactly when the budget is larger |
| DownsampleShape.VtkOrder | Wrappers/Python/test/test_vtk_image_resampler.py:46-48 | reordering numpy `(z, y, x)` to VTK `(x, y, z)` keeps the element count |
| DownsampleShape.MagnificationFor | Wrappers/Python/test/test_vtk_image_resampler.py:9-13 | `m` is the cube root (square root for acquisition data) of budget over size; it is at most 1 exactly when the budget does not exceed the size |
| DownsampleShape.ByteSize | Wrappers/Python/test/test_vtk_image_resampler.py:49 | the byte size is a whole multiple of the element size, and dividing by it gives the element count back |
| DownsampleShape.ExtentRoundTrip | Wrappers/Python/test/test_vtk_image_resampler.py:47 | the shape read back from an extent starting at the origin (`extent[2k+1] + 1`) has that extent as its whole extent |
| DownsampleShape.WholeExtent | Wrappers/Python/test/test_vtk_image_resampler.py:47 | the shape read back from an image's whole inclusive extent (`extent[2k+1] + 1`) is the image's shape |
| DownsampleShape.AcquisitionChecksConsistent | Wrappers/Python/test/test_vtk_image_resampler.py:75-87 | an output covering the helper's acquisition shape passes both assertions (element count, slab axis equals numpy axis 0) |
| DownsampleShape.AcquisitionChecksDetermineShape | Wrappers/Python/test/test_cli_resample.py:74-85 | an output passing both assertions has the helper's slab-axis length and in-plane element count |
| DownsampleShape.VtkResamplerTestShape | Wrappers/Python/test/test_vtk_image_resampler.py:40-51 | for the 50 x 10 x 60 uint16 array and a 100-byte budget the helper predicts `(7, 1, 7)` |
| DownsampleShape.CliResampleTestShape | Wrappers/Python/test/test_cli_resample.py:67-76 | for the 5 x 10 x 6 array (300 elements, no byte factor) as acquisition data with budget 100 the helper predicts `(3, 5, 5)` |
| ReadChunks.DropFirst | Wrappers/Python/wip/read_chunks1.py:19 | `s[1:]` is `s` without its first character, and empty for the empty string |
| ReadChunks.FindDtype | Wrappers/Python/wip/read_chunks1.py:16-25 | the type character and element size of the first table entry whose descriptor matches the header's without its byte-order mark; empty and 0 exactly when none matches |
| ReadChunks.ReorderShape | Wrappers/Python/wip/read_chunks1.py:35-42 | Fortran-ordered shapes are kept and C-ordered ones reversed |
| ReadChunks.BigEndianFlag | Wrappers/Python/wip/read_chunks1.py:94 | `'True'` exactly when the descriptor starts with `>`, else `'False'` |
| ReadChunks.BoundaryListShape | Wrappers/Python/wip/read_chunks1.py:52-58 | the boundaries start at 0, end at `n`, step by `r` except for a last step in `(0, r]`, strictly increase, and number `ceil(n / r) + 1` |
| ReadChunks.SlabBoundaries | Wrappers/Python/wip/read_chunks1.py:52-58 | the boundary loop builds `range(0, n, r)` followed by `n` |
| ReadChunks.TotalSize | Wrappers/Python/wip/read_chunks1.py:45 | for a 3-D header the element count is the product of the stored shape, whichever order the shape is reordered to |
| ReadChunks.TargetImageShape | Wrappers/Python/wip/read_chunks1.py:66-68 | the in-plane sizes are `m * size` truncated and the slab axis has `ceil(n / r)` planes, one per pair of consecutive boundaries |
| ReadChunks.PlanFor | Wrappers/Python/wip/read_chunks1.py:16-94 | what the plan is for a header and `m`: the header's data offset, the reordered shape, `int(1/m)` as reduction factor, its boundaries and target shape, the byte-order flag of the descriptor, and the first matching element type |
| ReadChunks.PlanChunks | Wrappers/Python/wip/read_chunks1.py:12-94 | error order before the loop: shape too short, empty volume, zero reduction factor, empty descriptor; success exactly otherwise, with the plan `PlanFor` describes |
| ReadChunks.TargetShapeMatchesHelper | Wrappers/Python/wip/read_chunks1.py:62-68 | for a non-empty slab axis and `m <= 1` the script's target shape is the shape the test helper computes |
| ReadChunks.SmallVolumeHasZeroReduction | Wrappers/Python/wip/read_chunks1.py:45-49 | the reduction factor is 0 exactly when the volume is smaller than 256 x 256 x 256 |
| ReadChunks.AsWrittenHeader | Wrappers/Python/wip/read_chunks1.py:106-118 | the header for boundary `i` keeps the in-plane sizes, always declares depth `r`, and starts at slice `i * r`, or at slice `n` for the appended last boundary |
| ReadChunks.SlabHeader | Wrappers/Python/wip/read_chunks1.py:106-118 | the header for slab `k` between two boundaries starts at slice `k * r` and is `r` deep, except the last, which holds the remaining `n - k * r` slices |
| ReadChunks.AsWrittenAddressing | Wrappers/Python/wip/read_chunks1.py:106-110 | the loop as written runs `target z + 1` times, always declares depth `r`, and reads at strictly increasing offsets |
| ReadChunks.AsWrittenLastSlabPastData | Wrappers/Python/wip/read_chunks1.py:106-111 | the loop's last header addresses slices beyond the end of the data |
| ReadChunks.AsWrittenReadsPastTenSlices | Wrappers/Python/wip/read_chunks1.py:106-111 | for 10 slices read 5 at a time the third header asks for slices 10 to 14 |
| ReadChunks.SlabHeadersTileData | Wrappers/Python/wip/read_chunks1.py:106-110 | slabs between consecutive boundaries tile the data exactly: first at the data start, each ending where the next starts, the last at the data end, each 1 to `r` slices deep, one per target plane |
| ReadChunks.WriteSlabsAsWritten | Wrappers/Python/wip/read_chunks1.py:84-131 | the loop as written fills all `target z + 1` planes of the inclusive allocation, plane `i` resliced, as plane `i`, from the as-written header of boundary `i` |
| ReadChunks.WriteSlabs | Wrappers/Python/wip/read_chunks1.py:106-131 | the corrected loop fills each of the `target z` planes, plane `k` resliced from the header of the slab between boundaries `k` and `k + 1` |
| ReadChunks.ReadChunks | Wrappers/Python/wip/read_chunks1.py:9-131 | the whole script as written: succeeds exactly when planning does, with the plan `PlanFor` gives for the header and `m`; allocates the inclusive extent (`target z + 1` planes), and plane `i` is resliced from the as-written header of boundary `i` |
| ReadChunks.ReadChunksCorrected | Wrappers/Python/wip/read_chunks1.py:84-131 | the script with the corrected loop: the plan `PlanFor` gives, `target z` planes, plane `k` resliced from the slab between boundaries `k` and `k + 1` |
| Dialogs.LastComponent | Wrappers/Python/ccpi/viewer/ui/dialogs.py:419 | `split("/")[-1]` is the longest slash-free suffix, preceded by `/` when shorter than the path |
| Dialogs.DropLast | Wrappers/Python/ccpi/viewer/ui/dialogs.py:420 | `s[:-k]` is the prefix of `s` that is `k` characters shorter, or empty when `s` has fewer than `k` |
| Dialogs.ParentGroup | Wrappers/Python/ccpi/viewer/ui/dialogs.py:411-427 | the parent is never empty; `/` and `//` are their own parent; the empty path and a path without `/` have the root as parent; otherwise the parent is a strictly shorter prefix |
| Dialogs.JoinGroup | Wrappers/Python/ccpi/viewer/ui/dialogs.py:330 | `group + "/" + name` has length `len(group) + 1 + len(name)`; what the joined path means is stated by `Dialogs.LastComponentOfJoin` and `Dialogs.ParentOfJoin` |
| Dialogs.LastComponentOfJoin | Wrappers/Python/ccpi/viewer/ui/dialogs.py:419 | the last component of a joined path is the slash-free item name |
| Dialogs.ParentOfJoin | Wrappers/Python/ccpi/viewer/ui/dialogs.py:330-334 | going up from an item entered by double click returns to the non-empty group it was entered from |
| Dialogs.Hdf5InputDialog.constructor | Wrappers/Python/ccpi/viewer/ui/dialogs.py:159-233 | the default dataset is the NXtomo path when the file has it as a dataset, the root group otherwise; the line edit and dataset field show it; "False" is selected for Z resampling |
| Dialogs.Hdf5InputDialog.SetLineEditText | Wrappers/Python/ccpi/viewer/ui/dialogs.py:304-308 | a line edit change is copied into the dataset name field |
| Dialogs.Hdf5InputDialog.GoToParentGroup | Wrappers/Python/ccpi/viewer/ui/dialogs.py:394-402 | the current group and the line edit become the parent group; the dialog invariant is kept |
| Dialogs.Hdf5InputDialog.OpenTableItem | Wrappers/Python/ccpi/viewer/ui/dialogs.py:317-340 | joins the item to the line edit's group if the file has it, else to the current group; enters the path exactly when the item is in that group, otherwise nothing changes |
| Dialogs.Hdf5InputDialog.GetHdf5Attributes | Wrappers/Python/ccpi/viewer/ui/dialogs.py:254-268 | exactly `dataset_name` (the line edit's path) and `resample_z` (true exactly when "True" is displayed) |
| Dialogs.RawInputDialog.constructor | Wrappers/Python/ccpi/viewer/ui/dialogs.py:58-104 | the defaults: 3D, sizes 0, uint8, little endian, Fortran order, Z entry enabled |
| Dialogs.RawInputDialog.Dimensionality | Wrappers/Python/ccpi/viewer/ui/dialogs.py:116 | 3 exactly when "3D" is selected, 2 exactly when "2D" is |
| Dialogs.RawInputDialog.EnableDisableDimZ | Wrappers/Python/ccpi/viewer/ui/dialogs.py:130-139 | the Z size entry is enabled exactly when "3D" is selected |
| Dialogs.RawInputDialog.SelectDimensionality | Wrappers/Python/ccpi/viewer/ui/dialogs.py:81 | choosing a dimensionality fires the enable/disable slot on a change, so the Z entry stays enabled exactly for 3D |
| Dialogs.RawInputDialog.GetRawAttrs | Wrappers/Python/ccpi/viewer/ui/dialogs.py:106-128 | exactly four keys; the shape has three sizes exactly for 3D (exactly when the Z entry is enabled), starting with X and Y; ordering, byte order and type are what the combo boxes display |
| ResampleCli.CopyParams | Wrappers/Python/ccpi/viewer/cli/resample.py:76-86 | the same sections and keys as the YAML, each value replaced by its `eval` where that does not raise (the try/except is `EvalOrKeep`) |
| ResampleCli.SplitArraySection | Wrappers/Python/ccpi/viewer/cli/resample.py:93-102 | without `array` both results are `None`; with it the raw attributes are the section minus `dataset_name`, which is bound only when present; the two together rebuild the section |
| ResampleCli.ReaderArguments | Wrappers/Python/ccpi/viewer/cli/resample.py:76-106 | `KeyError` for a missing `resample`, `target_size` or `resample_z`, in that order; `NameError` when `array` has no `dataset_name`; otherwise the evaluated values and the split `array` section |
| ResampleCli.ReaderArgumentsCorrected | Wrappers/Python/ccpi/viewer/cli/resample.py:93-106 | with `dataset_name` bound to `None` first: the same `KeyError`s, success exactly otherwise, and no HDF5 dataset name when `array` has none |
| ResampleCli.RawTestConfigAsWritten | Wrappers/Python/test/test_cli_resample.py:59-62 | `main` as written raises `NameError` on the raw test configuration |
| ResampleCli.RawTestConfigCorrected | Wrappers/Python/test/test_cli_resample.py:59-62 | the corrected `main` accepts the raw test configuration with its four raw attributes and no dataset name |

## Left out

- Floating point: `np.power` and the float divisions are taken as exact reals. `m` is an input tied to the budget by `MagnificationFor`. Where a float root rounds differently from the exact value, `int(1/m)` may differ from the model.
- `np.int` in `read_chunks1.py` is taken as `int()`. Recent numpy versions no longer have `np.int`, and that failure is not modelled.
- `parseNpyHeader`, `WriteMETAImageHeader`, `vtkMetaImageReader`, `vtkImageReslice` and `CopyAndCastFrom` are foreign code. The header arrives as a value and each written header is recorded. The plane produced is the opaque `reslice`, applied to the header and the output plane index.
- `ReadChunks.ReadChunks`: the output extent `(0, tx, 0, ty, i, i)`, the spacings `1/m` and `1/z_axis_magnification` and the origin `(0, 0, 0)` given to the reslice and the header are not modelled. So the model does not say where inside the slab plane `i` is sampled. It also cannot show whether, for `i >= 1`, the point `i / z_axis_magnification` falls outside a slab declared at origin 0.
- `Converter.numpy_dtype_char_to_bytes` is not part of this model. Element sizes are numpy's item sizes for the nine listed types.
- The `vtkImageData` allocation is represented by the length of the image array. Its scalar type and spacing are not modelled.
- Printing, `tqdm`, the `viewer2D` display and the hard-coded input file name are left out.
- The resampler and reader classes the tests drive (`vtkImageResampler`, `vortexHDF5ImageReader`) are not part of this model. Their output extent is an input to the test predicates.
- The HDF5 file is not modelled: dataset existence and group membership are boolean parameters. `descendHDF5AndFillTable`, `loadIntoTableWidget` and `onOkClicked` read the file or show dialogs and are not modelled. `Dialogs.Hdf5InputDialog.GoToParentGroup` does not refill the table.
- Qt widgets are abstracted to values. The size entries are integers, so `int(text)` raising on non-numeric text is not modelled. A combo box index always lies within its items.
- YAML loading, schema validation (its failure is only printed), argument parsing and the reader and writer calls in `main` are left out. `eval` is opaque; `None` stands for any exception. Sections are dictionaries, and dictionary order is not modelled because the results do not depend on it. A section that is not a dictionary, or an empty YAML file, makes `.items()` raise `AttributeError` in the `params` loop; the model's types exclude that case.
- The web viewer, the example scripts and the other context files are outside the modelled core.

## Findings

| source | as written | input that shows it | evidently intended | confidence | as-written member | corrected member |
|---|---|---|---|---|---|---|
| Wrappers/Python/wip/read_chunks1.py:106-110 | every boundary, including the appended `shape[2]`, is read as a slab of `r` slices at that boundary's offset, into an image allocated with `target z + 1` planes | `shape[2] = 10`, `r = 5`: the boundaries are `[0, 5, 10]` and the third header asks for slices 10 to 14 of a 10-slice volume | read the slices between consecutive boundaries, one plane per slab, `target z` planes | medium, not executed | ReadChunks.AsWrittenLastSlabPastData, ReadChunks.WriteSlabsAsWritten, ReadChunks.ReadChunks | ReadChunks.SlabHeadersTileData, ReadChunks.WriteSlabs, ReadChunks.ReadChunksCorrected |
| Wrappers/Python/ccpi/viewer/cli/resample.py:93-106 | `dataset_name` is assigned only inside the loop over an `array` section, so an `array` section without `dataset_name` leaves it unbound and the reader call raises `NameError` (`UnboundLocalError`) | the raw configuration of the command-line test: an `array` section with `shape`, `is_fortran`, `is_big_endian` and `typecode` only | bind `dataset_name = None` before the loop, so a raw file is read with no HDF5 dataset name | medium, not executed | ResampleCli.RawTestConfigAsWritten, ResampleCli.ReaderArguments | ResampleCli.RawTestConfigCorrected, ResampleCli.ReaderArgumentsCorrected |
