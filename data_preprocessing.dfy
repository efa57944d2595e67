/**
 * The train/validation split of `FastMRIDataset`
 * (MedAi-Assistant/fl-backend/client/data_preprocessing.py:69-87): the files found
 * in the data directory are cut at `int(0.8 * len(files))`; the training split is
 * the part before the cut and every other split the part after it.
 *
 * The product `0.8 * n` is computed in floating point. The double nearest 0.8 is
 * slightly above 0.8 and rounding is monotone, so for every count a directory
 * can hold the truncated product is the exact floor of 4n/5.
 */
module DataPreprocessing {

  /** `int(0.8 * n)`: the largest k with 5k <= 4n. */
  function SplitIndex(n: nat): (k: nat)
    ensures k <= n
    ensures 5 * k <= 4 * n < 5 * k + 5
  {
    (4 * n) / 5
  }

  /** `_get_files` (data_preprocessing.py:78-84), on the files the directory listing returned. */
  function GetFiles<T>(files: seq<T>, split: string): (r: seq<T>)
    ensures split == "train" ==> r == files[..SplitIndex(|files|)]
    ensures split != "train" ==> r == files[SplitIndex(|files|)..]
  {
    var cut := SplitIndex(|files|);
    if split == "train" then files[..cut] else files[cut..]
  }

  /**
   * The training split followed by any other split is the whole listing: no file
   * is lost, repeated or moved. The training split holds floor(0.8 n) files and
   * the other the rest.
   */
  lemma SplitPartitions<T>(files: seq<T>, other: string)
    requires other != "train"
    ensures GetFiles(files, "train") + GetFiles(files, other) == files
    ensures |GetFiles(files, "train")| == SplitIndex(|files|) <= |files|
    ensures |GetFiles(files, other)| == |files| - |GetFiles(files, "train")|
    ensures forall i :: 0 <= i < |GetFiles(files, other)| ==>
      GetFiles(files, other)[i] == files[SplitIndex(|files|) + i]
  {
    assert files[..SplitIndex(|files|)] + files[SplitIndex(|files|)..] == files;
  }

  /** Ten files split 8/2; four split 3/1, the 3.2 being truncated; a single file goes to validation. */
  lemma SplitExamples()
    ensures SplitIndex(10) == 8 && SplitIndex(4) == 3 && SplitIndex(1) == 0 && SplitIndex(5) == 4
  {
  }

  /** A FastMRI dataset: its settings and the files of its split. */
  class FastMRIDataset {
    const dataType: string
    const split: string
    const files: seq<string>

    /** `__init__` (data_preprocessing.py:71-76); `listing` is what the `*.h5` glob returned. */
    constructor (listing: seq<string>, dataType: string, split: string)
      ensures this.dataType == dataType && this.split == split
      ensures files == GetFiles(listing, split)
    {
      this.dataType := dataType;
      this.split := split;
      files := GetFiles(listing, split);
    }

    /** `__len__` (data_preprocessing.py:86-87). */
    function Length(): (n: nat)
      reads this
      ensures n == |files|
    {
      |files|
    }
  }
}
