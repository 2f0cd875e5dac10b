/**
 * The upload view (components/UploadStep.tsx): the list bookkeeping behind its
 * file picker and remove buttons, and its own transient warning message. The
 * file list itself belongs to the wizard; the view receives it and hands every
 * new list to the wizard's setter (`onFilesSelect`).
 */
module UploadStep {
  import opened Wrappers
  import Decimal

  const MinFiles := 5
  const MaxFiles := 10

  /** `isValid`: the Create button is enabled exactly for 5 to 10 files. */
  predicate IsValid<F>(files: seq<F>) {
    MinFiles <= |files| <= MaxFiles
  }

  /** `xs.slice(0, n)` for a non-negative `n`. */
  function Take<F>(xs: seq<F>, n: nat): (r: seq<F>)
    ensures |r| == if n < |xs| then n else |xs|
    ensures r <= xs
  {
    if n < |xs| then xs[..n] else xs
  }

  /**
   * The list `handleFileChange` passes to `onFilesSelect`, or None when it
   * calls nothing (no files were picked, or the list is already full).
   */
  function AddBatch<F>(files: seq<F>, picked: Option<seq<F>>): (r: Option<seq<F>>)
    ensures r.Some? <==> picked.Some? && |files| < MaxFiles
    ensures r.Some? ==> files <= r.value
    ensures r.Some? ==> r.value[|files|..] <= picked.value
    ensures r.Some? ==> |r.value| == if |files| + |picked.value| <= MaxFiles then |files| + |picked.value| else MaxFiles
  {
    if picked.Some? && |files| < MaxFiles then
      var added := Take(picked.value, MaxFiles - |files|);
      assert (files + added)[|files|..] == added;
      Some(files + added)
    else
      None
  }

  const WarningHead := "Maximum of 10 images reached. Only the first "

  /** The "maximum reached" warning for `slots` remaining places. */
  function Warning(slots: nat): string {
    WarningHead + Decimal.NatToString(slots) + " " + (if slots == 1 then "file was" else "files were") + " added."
  }

  /** The warning names the number of files added, right after its fixed opening. */
  lemma WarningStatesCount(slots: nat)
    ensures var w, n := Warning(slots), |Decimal.NatToString(slots)|;
      && |WarningHead| + n <= |w|
      && w[..|WarningHead|] == WarningHead
      && Decimal.AllDigits(w[|WarningHead|..|WarningHead| + n])
      && Decimal.ParseDigits(w[|WarningHead|..|WarningHead| + n]) == slots
  {
    var digits := Decimal.NatToString(slots);
    var rest := " " + (if slots == 1 then "file was" else "files were") + " added.";
    assert Warning(slots) == WarningHead + digits + rest;
    assert Warning(slots)[|WarningHead|..|WarningHead| + |digits|] == digits;
    Decimal.ParseNatToString(slots);
  }

  /**
   * A space separates the numeral from the rest, which is the singular
   * "file was added." for one place and the plural "files were added." otherwise.
   */
  lemma WarningSingular(slots: nat)
    ensures var w, n := Warning(slots), |WarningHead| + |Decimal.NatToString(slots)|;
      && n + 1 <= |w|
      && w[n] == ' '
      && w[n + 1..] == (if slots == 1 then "file was added." else "files were added.")
  {
    var digits := Decimal.NatToString(slots);
    var tail := (if slots == 1 then "file was" else "files were") + " added.";
    assert Warning(slots) == (WarningHead + digits) + (" " + tail);
  }

  /** The message `handleFileChange` leaves behind. */
  function AddMessage<F>(files: seq<F>, picked: Option<seq<F>>): (m: Option<string>)
    ensures m.Some? <==> picked.Some? && |files| < MaxFiles && |picked.value| > MaxFiles - |files|
    ensures m.Some? ==> m.value == Warning(MaxFiles - |files|)
  {
    if picked.Some? && |files| < MaxFiles then
      var remaining := MaxFiles - |files|;
      if |picked.value| > remaining && remaining > 0 then Some(Warning(remaining)) else None
    else
      None
  }

  /** Keeps the elements of `files` whose position, counted from `start`, is not `index`. */
  function SkipPosition<F>(files: seq<F>, index: int, start: int): (r: seq<F>)
    ensures start <= index < start + |files| ==>
      && |r| == |files| - 1
      && (forall k :: 0 <= k < index - start ==> r[k] == files[k])
      && (forall k :: index - start <= k < |r| ==> r[k] == files[k + 1])
    ensures !(start <= index < start + |files|) ==> r == files
  {
    if files == [] then []
    else (if start == index then [] else [files[0]]) + SkipPosition(files[1..], index, start + 1)
  }

  /** `files.filter((_, i) => i !== index)`. */
  function RemoveAt<F>(files: seq<F>, index: int): (r: seq<F>)
    ensures 0 <= index < |files| ==> |r| == |files| - 1
    ensures 0 <= index < |files| ==> forall k :: 0 <= k < index ==> r[k] == files[k]
    ensures 0 <= index < |files| ==> forall k :: index <= k < |r| ==> r[k] == files[k + 1]
    ensures !(0 <= index < |files|) ==> r == files
  {
    SkipPosition(files, index, 0)
  }

  /** Removing position `index` drops exactly that one file from the collection. */
  lemma RemoveAtMultiset<F>(files: seq<F>, index: int)
    requires 0 <= index < |files|
    ensures multiset(RemoveAt(files, index)) + multiset{files[index]} == multiset(files)
  {
    var r := RemoveAt(files, index);
    assert r == files[..index] + files[index + 1..];
    assert files == files[..index] + [files[index]] + files[index + 1..];
  }

  /** Picking 12 files for an empty list adds the first 10 and shows the warning. */
  lemma PickTwelveIntoEmpty<F>(batch: seq<F>)
    requires |batch| == 12
    ensures AddBatch([], Some(batch)) == Some(batch[..MaxFiles])
    ensures AddMessage([], Some(batch)) == Some(Warning(10))
  {
  }

  /** Local state of the upload view. */
  class UploadView {
    var uploadMessage: Option<string>

    constructor ()
      ensures uploadMessage == None
    {
      uploadMessage := None;
    }

    /**
     * `handleFileChange`: `files` is the wizard's list (the prop), `picked`
     * the picker's selection; `selected` is what is handed to `onFilesSelect`.
     */
    method HandleFileChange<F>(files: seq<F>, picked: Option<seq<F>>) returns (selected: Option<seq<F>>)
      modifies this
      ensures selected == AddBatch(files, picked)
      ensures uploadMessage == AddMessage(files, picked)
    {
      uploadMessage := None;
      selected := None;
      if picked.Some? && |files| < MaxFiles {
        var newFiles := picked.value;
        var remainingSlots := MaxFiles - |files|;
        var filesToAdd := Take(newFiles, remainingSlots);
        if |newFiles| > remainingSlots && remainingSlots > 0 {
          uploadMessage := Some(Warning(remainingSlots));
        }
        selected := Some(files + filesToAdd);
      }
    }

    /** `removeFile`: hands the list without position `index` to `onFilesSelect`. */
    method RemoveFile<F>(files: seq<F>, index: int) returns (selected: seq<F>)
      modifies this
      ensures selected == RemoveAt(files, index)
      ensures uploadMessage == None
    {
      selected := RemoveAt(files, index);
      uploadMessage := None;
    }
  }
}
