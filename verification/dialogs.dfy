/**
 * The non-widget logic of the two input dialogs: navigating HDF5 group paths
 * in the HDF5 dialog, and turning the raw and HDF5 dialogs' fields into the
 * attribute dictionaries the readers take.
 *
 * Widgets are abstracted to their values: a combo box to its current index
 * (kept within its item list, as Qt does), a line edit to its text, an
 * integer entry to its integer. Questions to the HDF5 file (does this group
 * exist, is this item in it) become boolean parameters.
 */
module Dialogs {

  /** A dictionary value: a list of integers, a boolean or a string. */
  datatype AttrValue = IntList(ints: seq<int>) | Flag(flag: bool) | Text(text: string)

  /** `s.split("/")[-1]`: the text after the last `/`, or all of `s` when it
      has none. */
  function LastComponent(s: string): (c: string)
    ensures |c| <= |s| && c == s[|s| - |c|..]
    ensures '/' !in c
    ensures |c| < |s| ==> s[|s| - |c| - 1] == '/'
  {
    if s == [] then []
    else if s[|s| - 1] == '/' then []
    else LastComponent(s[..|s| - 1]) + [s[|s| - 1]]
  }

  /** Python's `s[:-k]` for `k >= 1`: everything but the last `k` characters,
      or the empty string when `s` is shorter than `k`. */
  function DropLast(s: string, k: nat): (t: string)
    requires k >= 1
    ensures |t| == if |s| >= k then |s| - k else 0
    ensures t == s[..|t|]
  {
    if k <= |s| then s[..|s| - k] else ""
  }

  /** `getCurrentParentGroup`: strip `/` and the last component from a group
      path. The root `/`, the path `//` and the empty path have no parent;
      a result that would be empty is the root. */
  function ParentGroup(group: string): (parent: string)
    ensures parent != ""
    ensures group == "/" || group == "//" ==> parent == group
    ensures group == "" ==> parent == "/"
    ensures group != "" && '/' !in group ==> parent == "/"
    ensures '/' in group && group != "/" && group != "//" ==>
      |parent| < |group| && parent == group[..|parent|]
  {
    var stripped :=
      if group != "/" && group != "//" && group != "" then
        DropLast(group, |"/" + LastComponent(group)|)
      else
        group;
    if stripped == "" then "/" else stripped
  }

  /** The path of item `name` inside group `group`. */
  function JoinGroup(group: string, name: string): (path: string)
    ensures |path| == |group| + 1 + |name|
  {
    group + "/" + name
  }

  /** The last component of a joined path is the item name. */
  lemma {:induction false} LastComponentOfJoin(group: string, name: string)
    requires '/' !in name
    ensures LastComponent(JoinGroup(group, name)) == name
    decreases |name|
  {
    var path := JoinGroup(group, name);
    if name == [] {
      assert path[|path| - 1] == '/';
    } else {
      var shorter := name[..|name| - 1];
      assert path[..|path| - 1] == JoinGroup(group, shorter);
      assert path[|path| - 1] == name[|name| - 1] != '/';
      LastComponentOfJoin(group, shorter);
      assert name == shorter + [name[|name| - 1]];
    }
  }

  /** Going up from an item entered by a double click leads back to the
      group it was entered from. */
  lemma ParentOfJoin(group: string, name: string)
    requires group != "" && name != "" && '/' !in name
    ensures ParentGroup(JoinGroup(group, name)) == group
  {
    var path := JoinGroup(group, name);
    LastComponentOfJoin(group, name);
    assert DropLast(path, |"/" + name|) == group;
  }

  /** The dataset the NXtomo convention puts the data in. */
  const NxtomoDatasetName: string := "/entry1/tomo_entry/data/data"

  /** The items of the "Resample on Z Axis" combo box. */
  const ResampleZItems: seq<string> := ["False", "True"]

  /** The HDF5 input dialog: the group last entered, the text of the path
      line edit, the disabled "Dataset Name" field that mirrors it, and the
      "Resample on Z Axis" choice. */
  class Hdf5InputDialog {
    var fileName: string
    var currentGroup: string
    var lineEditText: string
    var datasetNameField: string
    var resampleZIndex: int

    /** The dataset name field mirrors the line edit (its `textChanged`
        signal updates it), and the current group is never empty. */
    ghost predicate Valid()
      reads this
    {
      && 0 <= resampleZIndex < |ResampleZItems|
      && datasetNameField == lineEditText
      && currentGroup != ""
    }

    /** Builds the dialog and chooses the default dataset: the NXtomo
        dataset when the file has it as a dataset, the root group otherwise. */
    constructor (fileName: string, hasNxtomoDataset: bool)
      ensures Valid()
      ensures this.fileName == fileName
      ensures currentGroup == (if hasNxtomoDataset then NxtomoDatasetName else "/")
      ensures lineEditText == currentGroup
      ensures resampleZIndex == 0
    {
      this.fileName := fileName;
      resampleZIndex := 0;
      currentGroup := if hasNxtomoDataset then NxtomoDatasetName else "/";
      lineEditText := currentGroup;
      datasetNameField := currentGroup;
    }

    /** Sets the line edit's text; its signal copies it into the dataset
        name field. */
    method SetLineEditText(text: string)
      modifies this`lineEditText, this`datasetNameField
      ensures lineEditText == text && datasetNameField == text
    {
      lineEditText := text;
      datasetNameField := text;
    }

    /** `goToParentGroup`: show and remember the parent of the current group
        (refilling the table from the file is not modelled). */
    method GoToParentGroup()
      requires Valid()
      modifies this
      ensures Valid()
      ensures currentGroup == ParentGroup(old(currentGroup))
      ensures lineEditText == currentGroup
      ensures fileName == old(fileName) && resampleZIndex == old(resampleZIndex)
    {
      var parentGroup := ParentGroup(currentGroup);
      SetLineEditText(parentGroup);
      currentGroup := parentGroup;
    }

    /** A double click on table item `itemText`: join it to the group in the
        line edit when the file has that group, to the current group
        otherwise, and open the result when the item is in that group. */
    method OpenTableItem(itemText: string, lineEditGroupExists: bool, itemInGroup: bool) returns (entered: bool)
      requires Valid()
      modifies this
      ensures Valid()
      ensures entered == itemInGroup
      ensures entered ==> currentGroup == JoinGroup(if lineEditGroupExists then old(lineEditText) else old(currentGroup), itemText)
      ensures entered ==> lineEditText == currentGroup
      ensures !entered ==> currentGroup == old(currentGroup) && lineEditText == old(lineEditText)
      ensures fileName == old(fileName) && resampleZIndex == old(resampleZIndex)
    {
      var group := if lineEditGroupExists then lineEditText else currentGroup;
      var newPath := JoinGroup(group, itemText);
      if itemInGroup {
        SetLineEditText(newPath);
        currentGroup := newPath;
        entered := true;
      } else {
        entered := false;
      }
    }

    /** `getHDF5Attributes`: the dataset name shown and whether the Z axis
        is to be resampled, which is what the combo box displays. */
    method GetHdf5Attributes() returns (attrs: map<string, AttrValue>)
      requires Valid()
      ensures attrs.Keys == {"dataset_name", "resample_z"}
      ensures attrs["dataset_name"] == Text(lineEditText)
      ensures attrs["resample_z"] == Flag(ResampleZItems[resampleZIndex] == "True")
    {
      attrs := map[];
      attrs := attrs["dataset_name" := Text(datasetNameField)];
      attrs := attrs["resample_z" := Flag(resampleZIndex != 0)];
    }
  }

  /** The items of the raw dialog's combo boxes. */
  const DimensionalityItems: seq<string> := ["3D", "2D"]
  const DtypeItems: seq<string> := ["int8", "uint8", "int16", "uint16"]
  const EndiannessItems: seq<string> := ["Big Endian", "Little Endian"]
  const FortranOrderItems: seq<string> := ["Fortran Order: XYZ", "C Order: ZYX"]

  /** The raw input dialog: the combo box indices, the three size entries
      and whether the Z size entry is enabled. */
  class RawInputDialog {
    var dimensionalityIndex: int
    var dimX: int
    var dimY: int
    var dimZ: int
    var dtypeIndex: int
    var endiannessIndex: int
    var fortranIndex: int
    var dimZEnabled: bool

    /** Every index is within its combo box, and the Z entry is enabled
        exactly when "3D" is chosen. */
    ghost predicate Valid()
      reads this
    {
      && 0 <= dimensionalityIndex < |DimensionalityItems|
      && 0 <= dtypeIndex < |DtypeItems|
      && 0 <= endiannessIndex < |EndiannessItems|
      && 0 <= fortranIndex < |FortranOrderItems|
      && (dimZEnabled <==> DimensionalityItems[dimensionalityIndex] == "3D")
    }

    /** The dialog as built: 3D, sizes 0, uint8, little endian, Fortran order. */
    constructor ()
      ensures Valid()
      ensures dimensionalityIndex == 0 && dimX == 0 && dimY == 0 && dimZ == 0
      ensures DtypeItems[dtypeIndex] == "uint8"
      ensures EndiannessItems[endiannessIndex] == "Little Endian"
      ensures FortranOrderItems[fortranIndex] == "Fortran Order: XYZ"
      ensures dimZEnabled
    {
      dimensionalityIndex := 0;
      dimX, dimY, dimZ := 0, 0, 0;
      dtypeIndex := 1;
      endiannessIndex := 1;
      fortranIndex := 0;
      dimZEnabled := true;
    }

    /** `[3, 2][index]`: the number of dimensions the dimensionality
        combo box selects. */
    function Dimensionality(): (d: int)
      reads this
      requires 0 <= dimensionalityIndex < |DimensionalityItems|
      ensures d == 3 <==> DimensionalityItems[dimensionalityIndex] == "3D"
      ensures d == 2 <==> DimensionalityItems[dimensionalityIndex] == "2D"
    {
      [3, 2][dimensionalityIndex]
    }

    /** `enableDisableDimZ`: the Z size entry is enabled exactly for 3D data. */
    method EnableDisableDimZ()
      requires 0 <= dimensionalityIndex < |DimensionalityItems|
      modifies this`dimZEnabled
      ensures dimZEnabled <==> DimensionalityItems[dimensionalityIndex] == "3D"
    {
      var dimensionality := Dimensionality();
      if dimensionality == 3 {
        dimZEnabled := true;
      } else {
        dimZEnabled := false;
      }
    }

    /** The user picks a dimensionality; a change of index fires
        `currentIndexChanged`, which runs `enableDisableDimZ`. */
    method SelectDimensionality(index: int)
      requires Valid() && 0 <= index < |DimensionalityItems|
      modifies this`dimensionalityIndex, this`dimZEnabled
      ensures Valid()
      ensures dimensionalityIndex == index
    {
      var changed := index != dimensionalityIndex;
      dimensionalityIndex := index;
      if changed {
        EnableDisableDimZ();
      }
    }

    /** `getRawAttrs`: the shape lists X and Y, and Z only for 3D data (the
        same condition that enables the Z entry); ordering, byte order and
        type are what the combo boxes display. */
    method GetRawAttrs() returns (attrs: map<string, AttrValue>)
      requires Valid()
      ensures attrs.Keys == {"shape", "is_fortran", "is_big_endian", "typecode"}
      ensures attrs["shape"].IntList?
      ensures var dims := attrs["shape"].ints;
        && (|dims| == 3 <==> DimensionalityItems[dimensionalityIndex] == "3D")
        && (|dims| == 2 <==> DimensionalityItems[dimensionalityIndex] == "2D")
        && (|dims| == 3 <==> dimZEnabled)
        && dims[..2] == [dimX, dimY]
        && (|dims| == 3 ==> dims[2] == dimZ)
      ensures attrs["is_fortran"] == Flag(FortranOrderItems[fortranIndex] == "Fortran Order: XYZ")
      ensures attrs["is_big_endian"] == Flag(EndiannessItems[endiannessIndex] == "Big Endian")
      ensures attrs["typecode"] == Text(DtypeItems[dtypeIndex])
    {
      attrs := map[];
      var dimensionality := Dimensionality();
      var dims: seq<int> := [];
      dims := dims + [dimX];
      dims := dims + [dimY];
      if dimensionality == 3 {
        dims := dims + [dimZ];
      }
      attrs := attrs["shape" := IntList(dims)];
      attrs := attrs["is_fortran" := Flag(!(fortranIndex != 0))];
      attrs := attrs["is_big_endian" := Flag(!(endiannessIndex != 0))];
      attrs := attrs["typecode" := Text(DtypeItems[dtypeIndex])];
    }
  }
}
