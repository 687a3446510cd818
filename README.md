# zk-proof-of-income: income labelling and dataset index

This project models the part of the zk-proof-of-income repository that holds real
logic: the Python data preparation for the income classifier. The classifier is later
compiled to a zero-knowledge circuit.

- **Income categories** (`ezkl/data/data_generation.py`). A table of three integer range
  predicates maps an income to class 0, 1 or 2. `get_label_for` returns the first key
  whose predicate holds, or Python's `None` when none holds. The generation script
  pre-sizes a training list of 1000 slots and a test list of 10 slots. It then fills
  slot `sample_index` with an `(image, label)` pair drawn from `randint(1, 3) * 50000`.
- **Dataset index** (`ezkl/data/local_torch_datasets.py`). `TrainDataset.__init__` walks
  a directory listing. For each class directory it takes the last `/`-separated segment
  as the class name. For every PNG in that directory it appends
  `(img_path, int(class_name))` to `self.data`. `__len__` and `__getitem__` read that
  list back.

Modules:

- `Results`: Option and Result values.
- `Decimal`: Python's `str` and `int` on integers, with the round trip between them, for integers below CPython's default 4300-digit conversion limit (the model itself has no limit). `int` is a character-by-character scan, as CPython does it.
- `IncomeLabels`: the category table, `get_label_for` and the generation loops.
  The lists are arrays of slots, overwritten in place.
- `TorchDataset`: path-segment extraction and the index, which is specified by the
  function `Index` over the listing. The constructor's two nested loops are methods
  proved equal to `Index`. `TrainDataset` is a class whose `Valid()` ties `data` to the
  listing it was built from.
- `Pipeline`: a sample written into a directory named after its label is read back by
  the loader with that same label.

Inputs taken as parameters:

- `randint(1, 3)` is a sequence of draws in 1..3, one per sample.
- Both `glob` calls are a listing: `(class_path, [png paths])` pairs, in glob's order.
- Images are not modelled. A stored sample keeps the income the image shows. An index
  entry keeps the path that `cv2.imread` would open.

The Solidity verifier `Halo2Verifier` is generated by ezkl (`test_1.sol` in
`ezkl/anvil_deploy.py`). It is only compiled, deployed and called by name, in
`evm/scripts/deploy.ts`, `evm/test/Verify.ts` and `ezkl/anvil_deploy.py`. Its source
and its pairing check are not among the files modelled. None of those files
implements an access gate around it.

## Model

| member | source | states |
|---|---|---|
| IncomeLabels.Categories | ezkl/data/data_generation.py:21-25 | the table `categories`: keys 0, 1, 2 in insertion order, with the predicates [0, 50000], (50000, 100000] and (100000, 151000) |
| IncomeLabels.GetLabelFor | ezkl/data/data_generation.py:41-44 | returns no label exactly when no predicate of the table holds; a returned label belongs to a predicate that holds, and no earlier predicate holds |
| IncomeLabels.LabelOf | ezkl/data/data_generation.py:21-25 | the label of every income under the table: 0 on [0, 50000], 1 on (50000, 100000], 2 on (100000, 151000), none elsewhere |
| IncomeLabels.LabelZeroExactly | ezkl/data/data_generation.py:22 | label 0 if and only if 0 <= income <= 50000 |
| IncomeLabels.LabelOneExactly | ezkl/data/data_generation.py:23 | label 1 if and only if 50000 < income <= 100000 |
| IncomeLabels.LabelTwoExactly | ezkl/data/data_generation.py:24 | label 2 if and only if 100000 < income < 151000 |
| IncomeLabels.NoLabelExactly | ezkl/data/data_generation.py:41-44 | no label (the function falls out of its loop) if and only if income < 0 or income >= 151000 |
| IncomeLabels.CategoriesDisjoint | ezkl/data/data_generation.py:21-25 | no income satisfies two of the three predicates, so overlapping predicates never disagree on a label |
| IncomeLabels.FirstMatchIsAnyMatch | ezkl/data/data_generation.py:41-44 | in a table without conflicting predicates, the first-match search returns the label of any predicate that holds |
| IncomeLabels.LabelIgnoresKeyOrder | ezkl/data/data_generation.py:42 | any table holding the same entries in any order yields the same label for every income, so the dictionary's key order does not matter |
| IncomeLabels.LabelMonotone | ezkl/data/data_generation.py:21-25 | among labelled incomes, a larger income never gets a smaller label |
| IncomeLabels.DrawnIncome | ezkl/data/data_generation.py:54 | a drawn income is 50000, 100000 or 150000 |
| IncomeLabels.DrawnIncomeLabel | ezkl/data/data_generation.py:54 | every drawn income gets a label: 50000 gets 0, 100000 gets 1, 150000 gets 2 |
| IncomeLabels.NewDataset | ezkl/data/data_generation.py:49-50 | a fresh list of the requested size, every slot holding the placeholder |
| IncomeLabels.StoreSample | ezkl/data/data_generation.py:66 | slot `sample_index` now holds the income with its `get_label_for` label; no other slot changes |
| IncomeLabels.FillDataset | ezkl/data/data_generation.py:52-66 | after the loop, every slot i holds the income drawn at step i with label draw - 1, and the length is unchanged |
| IncomeLabels.GenerateDatasets | ezkl/data/data_generation.py:46-87 | two distinct fresh lists of 1000 and 10 slots; slot i of each holds draw i's income and its `get_label_for` label, which is always present |
| Decimal.ShowNat | ezkl/data/data_generation.py:63 | the decimal text of a label is a non-empty run of digits, and a leading zero only in `0` itself |
| Decimal.ShowInt | ezkl/data/data_generation.py:63 | `str(n)`, the writing half of the round trip with `int(class_name)` at ezkl/data/local_torch_datasets.py:17: starting with `-` exactly when n is negative, then a non-empty run of digits with a leading zero only in `0` itself |
| Decimal.ParseInt | ezkl/data/local_torch_datasets.py:17 | `int(s)` on a string in base 10: optional surrounding whitespace, an optional sign, then digits with single underscores between them; `None` where Python raises `ValueError` |
| Decimal.ParseShowInt | ezkl/data/local_torch_datasets.py:17 | `int(str(n)) == n` for every integer below CPython's default 4300-digit conversion limit (the model proves it for every integer) |
| Decimal.ParseIntNeedsDigit | ezkl/data/local_torch_datasets.py:17 | `int()` fails on text with no digit, such as the empty name or `None` |
| TorchDataset.LastSegment | ezkl/data/local_torch_datasets.py:15 | `split("/")[-1]`: the text after the last `/`, or the whole path when it has none |
| TorchDataset.LastSegmentSpec | ezkl/data/local_torch_datasets.py:15 | the class name has no `/`, is a suffix of the path, and is preceded by a `/` unless it is the whole path |
| TorchDataset.LastSegmentAfterSlash | ezkl/data/local_torch_datasets.py:15 | the class name of `parent + "/" + name` is `name` whenever `name` has no `/` |
| TorchDataset.ClassId | ezkl/data/local_torch_datasets.py:15-17 | `int(class_path.split("/")[-1])`, or `None` where it raises |
| TorchDataset.DirectoryEntries | ezkl/data/local_torch_datasets.py:16-17 | one class directory's entries: none when it has no PNG (so `int` is never called), the first `ValueError` when its name is not an integer, otherwise every PNG path paired with the class id |
| TorchDataset.Index | ezkl/data/local_torch_datasets.py:13-17 | `self.data` after the nested loops, or the first `ValueError` they raise |
| TorchDataset.TotalImages | ezkl/data/local_torch_datasets.py:14-16 | the number of PNG paths across all class directories of the listing |
| TorchDataset.Tagged | ezkl/data/local_torch_datasets.py:16-17 | one entry per image, in image order, each paired with the same class id |
| TorchDataset.IndexFails | ezkl/data/local_torch_datasets.py:14-17 | construction fails if and only if some directory with at least one image has a name `int()` rejects |
| TorchDataset.IndexFailsFirst | ezkl/data/local_torch_datasets.py:14-17 | construction stops at the first such directory in listing order, and the error names it |
| TorchDataset.AbortPersists | ezkl/data/local_torch_datasets.py:14-17 | once the walk has failed on a prefix of the listing, the whole construction fails with that error |
| TorchDataset.IndexExtends | ezkl/data/local_torch_datasets.py:14-17 | the entries built from the first k directories are, unchanged, the front of the entries built from all of them: appending never reorders or drops earlier entries |
| TorchDataset.IndexLength | ezkl/data/local_torch_datasets.py:14-17 | the index has exactly one entry per PNG path across all class directories |
| TorchDataset.IndexPosition | ezkl/data/local_torch_datasets.py:14-17 | image m of directory k is at position (images in directories before k) + m, paired with directory k's parsed name: grouped by directory in listing order, image order within |
| TorchDataset.IndexEntryOrigin | ezkl/data/local_torch_datasets.py:17 | every entry pairs an image path listed under some directory with `int` of that directory's last segment |
| TorchDataset.AppendDirectory | ezkl/data/local_torch_datasets.py:16-17 | the inner loop appends the directory's entries after the existing ones, or fails as `int(class_name)` does, and only when the directory has an image |
| TorchDataset.CollectEntries | ezkl/data/local_torch_datasets.py:13-17 | the nested loops produce exactly the index of the listing, or its first error |
| TorchDataset.TrainDataset.Init | ezkl/data/local_torch_datasets.py:10-19 | a valid dataset holding the root path, the given index and the image size (800, 603) |
| TorchDataset.TrainDataset.Len | ezkl/data/local_torch_datasets.py:21-22 | `__len__` is the total number of PNG paths across the class directories |
| TorchDataset.TrainDataset.GetItem | ezkl/data/local_torch_datasets.py:24-25 | succeeds if and only if -len <= idx < len, using Python's negative indexing; returns `data[idx]`, whose class id is `int` of the directory its image was listed under; otherwise raises `IndexError` |
| TorchDataset.Open | ezkl/data/local_torch_datasets.py:9-19 | `TrainDataset(path)` fails if and only if some directory with images is unparsable; otherwise it yields a fresh valid dataset whose data is the index of the listing and whose image size is (800, 603) |
| IncomeLabels.LabelText | ezkl/data/data_generation.py:63 | `"{}".format(label)`: a non-empty name without `/`, the label's digits or `None` |
| IncomeLabels.SampleDirectory | ezkl/data/data_generation.py:63 | the directory `img.save` writes into: the dataset root, `/`, the label's text |
| Pipeline.LabelDirectoryRoundTrip | ezkl/data/data_generation.py:63 | the directory a sample of label n is saved in has a last segment the loader parses back to n |
| Pipeline.GeneratedSampleReloads | ezkl/data/data_generation.py:63 | every generated sample's directory is read back by the loader as class draw - 1, the label the generator gave it |
| Pipeline.UnlabelledSampleBreaksLoader | ezkl/data/data_generation.py:63 | an income with no label would be sent to `<root>/None`, a name the loader cannot parse (only the directories 0, 1 and 2 are created, so the save itself would fail) |

## Left out

- Proof verifier: `Halo2Verifier` (generated by ezkl, `test_1.sol` in ezkl/anvil_deploy.py) is only compiled, deployed and called by name in evm/scripts/deploy.ts, evm/test/Verify.ts and ezkl/anvil_deploy.py. Its source and pairing check are not among the files modelled, and none of those files implements an access gate.
- Web front end, Flask routes, witness generation, proving and deployment scripts: UI, file and network glue around foreign calls into the ezkl engine.
- Image drawing, font loading, `img.save`, `np.array`, CSV writing, and deleting and recreating the class directories in data_generation.py: file and image I/O. Only the directory name a sample is saved under is modelled.
- `randint`: it is an input sequence of draws in 1..3.
- `glob`: its results are an input listing in glob's order, because the order depends on the file system.
- `cv2.imread`, `cv2.resize`, tensor reshaping and permuting, `torch.tensor`, `DataLoader` batching and `print` in local_torch_datasets.py: image decoding, library code and output.
- TorchDataset.TrainDataset.GetItem: returns the image path in place of the decoded image tensor. It does not model `cv2` failing on an unreadable file.
- Decimal.ParseShowInt: CPython 3.11 and later raise `ValueError` in `str` and `int` beyond 4300 digits by default. The model has no digit limit, so the round trip holds for every integer here. Labels and class names are far below the limit.
- Decimal.ParseInt: models `int()` on ASCII text only, and so does the round trip Decimal.ParseShowInt proves with it. It covers ASCII whitespace, an optional sign, and ASCII digits with single underscores between them. Unicode digits and Unicode whitespace, which Python also accepts, are not modelled.
