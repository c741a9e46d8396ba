# SPICE wrapper and embedding loader, modelled in Dafny

This project models the two leaf utilities of an image-captioning pipeline.

- **The SPICE metric wrapper** (`src/metrics/spice/spice.py`, module `Spice`). It checks that the
  candidate batch `res` and the reference batch `gts` are aligned. It builds one scorer input record
  per sample, with the sample's position as its image id, and runs the external SPICE scorer. It then
  re-associates the scorer's results with the input order through a dictionary keyed by image id,
  converts every score leaf with the never-failing `float_convert`, and averages the "All"/"f" leaf.
  The scorer is a parameter `tool` mapping input records to result items, or to `None` for a
  non-zero exit. Python's `float(str)` is a parameter `parse`. A numeric `None` stands for NaN.
- **The pretrained-embedding loader** (`src/utils/embedding.py`, module `Embedding`). It derives a
  cache path from the embedding file's base name. On a cache hit it returns the stored
  (table, dimension) pair. On a miss it reads the dimension off the first line and allocates and
  randomly initialises a |word map| x dimension table (an `array2`). It then overwrites, line by
  line and in place, the row of every word that is in the word map, stores the pair in the cache
  and returns it. Numbers are an abstract element type `E`. `float(str)` is a parameter `parse`,
  and the random initial values are a parameter `noise`. The cache is the field
  `EmbeddingCache.stored` (path to pair), and the text files are a map from path to lines.
- `Strings` holds the Python string and POSIX path behaviour the loader depends on: `str.split(' ')`,
  `str.isspace`, `os.path.basename` and `os.path.join`. `Wrappers` holds `Option` and `Result`.

Where the code does more than a plain reading of the loader suggests, the model follows the code:

- A first line without a space, or an empty file, gives dimension 0. The initialisation then
  divides `3.0 / 0` and raises (`ZeroDimension`).
- A vector that is one field long is broadcast over the whole row by the tensor assignment. A
  vector of any other wrong length raises (`ShapeMismatch`).
- A negative word index selects a row from the end of the table. An index outside
  `[-rows, rows)` raises (`RowOutOfRange`).
- The dimension counts every `' '` of the first line, but a line's vector drops empty and
  whitespace-only fields. A first line with a trailing space therefore gives a dimension one
  larger than its own vector.
- The SPICE aggregate is the mean over the scorer's result items, not over the input samples.
  Extra or duplicated result items take part in it.

## Model

| member | source | states |
|---|---|---|
| `Spice.MethodName` | src/metrics/spice/spice.py:99-100 | the metric's name is always "SPICE" |
| `Spice.FloatConvert` | src/metrics/spice/spice.py:28-32 | total: numbers convert to themselves, booleans to 1/0, strings as `float` parses them, null/arrays/objects to NaN; never an error |
| `Spice.BuildInput` | src/metrics/spice/spice.py:38-56 | succeeds iff every sample of both batches is a non-empty list; record i is (image id i, res[i], gts[i]) and the id list is 0..n-1 in order; otherwise the error names the FIRST bad sample |
| `Spice.IdTable` | src/metrics/spice/spice.py:84-87 | the id dictionary has exactly the ids carried by some result item |
| `Spice.CollectResults` | src/metrics/spice/spice.py:84-88 | succeeds iff every result item has scores["All"]["f"]; then yields the id dictionary and the converted "All"/"f" leaves in result order; otherwise the error names the first item without it |
| `Spice.ConvertCategories` | src/metrics/spice/spice.py:92-95 | the converted set has exactly the categories of the source, each with exactly its metric keys, and every value is `FloatConvert` of the original leaf |
| `Spice.LookUpAll` | src/metrics/spice/spice.py:90-96 | succeeds iff every requested id is in the dictionary; entry j is converted from the dictionary entry of id j, one entry per id; otherwise the error names the first missing id |
| `Spice.Reassociate` | src/metrics/spice/spice.py:84-97 | the second half of `compute_score`: missing "All"/"f" aborts first, then a missing id; on success the average is the mean of the "All"/"f" leaves and entry j is converted from the result for imgIds[j] |
| `Spice.ComputeScore` | src/metrics/spice/spice.py:34-97 | unequal batch lengths fail before the scorer is consulted; a bad sample fails with its first index; a scorer failure fails; otherwise the outcome is `Reassociated` over the records with image id = position |
| `Spice.IdTableLastWins` | src/metrics/spice/spice.py:86-87 | when several result items carry one id, the last of them determines that id's scores |
| `Spice.IdTableEntryFrom` | src/metrics/spice/spice.py:86-87 | every dictionary entry is the scores of some result item with that id |
| `Spice.IdTableOrderIndependent` | src/metrics/spice/spice.py:84-87 | with distinct ids, any permutation of the scorer's output gives the same id dictionary |
| `Spice.MissingAllFIgnoresOrder` | src/metrics/spice/spice.py:86-88 | whether some result item lacks "All"/"f" does not depend on the order of the items |
| `Spice.PerSampleFromLastResult` | src/metrics/spice/spice.py:84-96 | on success there is one entry per sample, and entry i is converted from the LAST result item whose image id is i, wherever it stands in the output |
| `Spice.ReassociationIgnoresOrder` | src/metrics/spice/spice.py:84-96 | a permutation of the scorer's output (distinct ids) succeeds exactly when the original does and yields the same per-sample list |
| `Spice.ConvertMetrics` | src/metrics/spice/spice.py:95 | the converted category has exactly the metric keys of the original, each value `FloatConvert` of its leaf |
| `Spice.AllFValues` | src/metrics/spice/spice.py:85-88 | `spice_scores` has one entry per result item, entry i the converted "All"/"f" leaf of item i |
| `Spice.AllFValuesExtend` | src/metrics/spice/spice.py:88 | each result item appends its own converted leaf at the end, keeping the earlier entries |
| `Spice.ConvertedFromUnique` | src/metrics/spice/spice.py:93-95 | the conversion of a score set is determined by its source |
| `Spice.SumDefined` | src/metrics/spice/spice.py:89 | the sum is NaN iff some value is NaN |
| `Spice.Mean` | src/metrics/spice/spice.py:89 | the mean is NaN iff the list is empty or some value is NaN, so a single NaN poisons the aggregate |
| `Spice.SumWithinBounds` | src/metrics/spice/spice.py:89 | values in [lo, hi] have a sum in [n lo, n hi] |
| `Spice.MeanWithinBounds` | src/metrics/spice/spice.py:89 | the mean of a non-empty list of numbers in [lo, hi] is a number in [lo, hi] |
| `Strings.Split` | src/utils/embedding.py:42 | `split(' ')` gives one more piece than there are separators, no piece contains the separator, and the first piece is the prefix before the first separator |
| `Strings.JoinSplit` | src/utils/embedding.py:53 | joining the pieces of `split(sep)` with `sep` gives back the line |
| `Strings.IsSpaceString` | src/utils/embedding.py:56 | `str.isspace` (with `Strings.IsSpace` for one character): true iff the string is non-empty and every character is Python whitespace |
| `Strings.AfterLastSlash` | src/utils/embedding.py:35 | the base name starts right after the last '/' and contains none |
| `Strings.Basename` | src/utils/embedding.py:35 | the base name is a suffix of the path without '/', preceded by '/' whenever it is not the whole path |
| `Strings.BasenameSplitsPath` | src/utils/embedding.py:35 | directory prefix + base name is the path; the base name has no '/'; the prefix is empty or ends in '/' |
| `Strings.PathJoin` | src/utils/embedding.py:36 | an absolute second part replaces the first; otherwise a "/" is inserted exactly when a is non-empty and does not end in '/'; the result always ends with b |
| `Embedding.EmbedDim` | src/utils/embedding.py:41-42 | the dimension is the number of spaces on the first line (0 for an empty file) |
| `Embedding.KeepFields` | src/utils/embedding.py:56 | a field is kept iff it occurs in the input and is non-empty and not whitespace-only |
| `Embedding.KeepFieldsAppend` | src/utils/embedding.py:56 | the filter keeps the order of the fields: it distributes over concatenation |
| `Embedding.Tokenise` | src/utils/embedding.py:53-56 | the word is the part of the line before its first space; the fields are the later pieces that pass the filter, none containing a space |
| `Embedding.ParseAll` | src/utils/embedding.py:56 | the vector exists iff every field converts; it then has one element per field, each the field's conversion |
| `Embedding.LineVector` | src/utils/embedding.py:53-56 | the line's vector exists iff every kept field converts; it has one element per kept field, each that field's conversion |
| `Embedding.RowIndex` | src/utils/embedding.py:62 | a row index exists iff -rows <= index < rows, and it is index mod rows |
| `Embedding.Broadcast` | src/utils/embedding.py:62 | a vector fits a row iff it has the row's width or length 1; a full-width vector is copied as it is, and a one-element vector fills every cell of the row with its element |
| `Embedding.ApplyLine` | src/utils/embedding.py:53-62 | the line succeeds iff it fits (fields convert; for a word of the word map, index in range and vector of width dim or 1); an unconvertible field fails even for an unknown word, an out-of-range index is `RowOutOfRange`, a wrong width `ShapeMismatch`; an unknown word changes nothing; otherwise only the row the word selects changes, to the line's vector |
| `Embedding.Fill` | src/utils/embedding.py:52-62 | a successful fill keeps the number of rows and the row width; a failure names a line of the file |
| `Embedding.FillSucceeds` | src/utils/embedding.py:52-62 | the fill succeeds iff every line fits the table |
| `Embedding.InitialTable` | src/utils/embedding.py:45-49 | the initial table has one row per word-map key and `dim` columns |
| `Embedding.LoadFromText` | src/utils/embedding.py:39-62 | dimension 0 fails with `ZeroDimension`; any other failure names a line of the file; a success has dimension = spaces on the first line (> 0) and |word map| rows of that width |
| `Embedding.LoadSucceeds` | src/utils/embedding.py:39-62 | the load from text succeeds iff the first line has a space and every line fits the |word map| x dimension table |
| `Embedding.LastWriter` | src/utils/embedding.py:59-62 | the index of the last line that writes a given row, or -1 when none does |
| `Embedding.FillFailurePersists` | src/utils/embedding.py:52-62 | once a prefix of the lines fails, the whole fill fails with the same error |
| `Embedding.FillRow` | src/utils/embedding.py:59-62 | after a successful fill, a row no line writes is unchanged, and any other row holds the vector of the LAST line that writes it |
| `Embedding.FillFailsAtBadNumber` | src/utils/embedding.py:56-59 | the fill up to an unconvertible line fails |
| `Embedding.FillFailsOnBadNumber` | src/utils/embedding.py:56-59 | any unconvertible line aborts the whole load at or before that line, whatever its word |
| `Embedding.LoadedTable` | src/utils/embedding.py:39-62 | a successful load has dimension = spaces on the first line (> 0) and shape |word map| x dimension; unwritten rows keep their initial values, written rows hold the last writer's vector |
| `Embedding.Contents` | src/utils/embedding.py:48 | the tensor's contents, row by row, with its shape |
| `Embedding.InitEmbeddings` | src/utils/embedding.py:6-14 | every cell (i, j) of the table is set to its initial value |
| `Embedding.WriteRow` | src/utils/embedding.py:62 | row r is replaced by the vector and every other row is left as it was |
| `Embedding.FillRows` | src/utils/embedding.py:52-62 | the in-place loop over the lines returns exactly `Fill` of the initial contents, failures included, and on success the array holds the filled table |
| `Embedding.BuildTable` | src/utils/embedding.py:39-62 | the in-place fill of the array returns exactly what `LoadFromText` describes |
| `Embedding.CachePath` | src/utils/embedding.py:35-36 | the cache path is the output folder joined with basename + "_" + output basename + ".pth.tar" |
| `Embedding.BasenameOfJoined` | src/utils/embedding.py:35 | the base name of dir/name is name |
| `Embedding.CacheKeyIgnoresDirectory` | src/utils/embedding.py:35-36 | embedding files with the same base name in different directories share one cache path |
| `Embedding.EmbeddingCache.LoadEmbeddings` | src/utils/embedding.py:17-73 | a hit returns the stored pair and changes nothing; a missing text file fails; a miss returns `LoadFromText` and stores it only on success |
| `Embedding.ReloadHitsCache` | src/utils/embedding.py:39-73 | after a successful load, a second call with the same file and output arguments returns the same pair, whatever word map, text and random values it is given |

## Left out

- The Java subprocess, its command line and flags, the temporary input and output files, and the JSON encoding and decoding are not modelled. The scorer is the parameter `tool`, and a malformed output file counts as a scorer failure.
- The timestamp-named cache directory made in `Spice.__init__` and removed in `__del__` is file-system I/O with no result; it is not modelled.
- Result items whose JSON shape differs from the datatypes are not modelled. A missing `image_id` raises a KeyError, an "All" that is not an object raises a TypeError at the aggregate lookup, and a category that is not an object raises an AttributeError at its `.items()`.
- Spice.ConvertCategories: a converted score set is a map, so the order of its categories and metric keys is not kept; the returned Python dictionaries keep the scorer's order.
- Floating point is not modelled. The grammar of `float(str)` is the parameter `parse`, and `FloatConvert` maps its failure to NaN. NaN is `None`, and `np.mean` is exact real arithmetic without rounding. An embedding table holds an abstract element type, so float32 rounding of the tensor is not modelled either.
- Spice.ReassociationIgnoresOrder: states order independence of the per-sample list only. The aggregate is a sum over the items in result order; its independence of that order is not proved.
- Embedding.InitEmbeddings: the initial values are an arbitrary given function `noise`. The uniform distribution on [-sqrt(3/dim), sqrt(3/dim)] is not modelled. The division by zero at dimension 0 is modelled as `ZeroDimension`.
- The progress bar, the `print` messages and the line count `num_lines` (used only for progress) are not modelled.
- Embedding.EmbeddingCache.LoadEmbeddings: a failing `torch.save` (a missing or unwritable output folder) is not modelled. In the source it raises after the table is built; in the model a successful miss always stores its pair and returns it.
- The `torch.save`/`torch.load` format is not modelled; the cache stores the pair as a value. The loader returns the table's contents, so aliasing between the returned tensor and the saved one is not captured.
- Reading the file is not modelled: its lines are given already split. Newline translation is not modelled, and each line keeps its own terminator (`"w 1 2\n"`).
- `os.path` is modelled for POSIX paths only.
- Word-map values are taken to be integers.
- Races between concurrent loaders or scorers are not modelled.
