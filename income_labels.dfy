/** The income categories the proof-of-income classifier is trained on, and
    the generation loops that fill the training and test sets with labelled
    samples (ezkl/data/data_generation.py). */
module IncomeLabels {
  import opened Results
  import opened Decimal

  /** One integer range predicate of the category table: `lo <= x` or
      `lo < x`, and `x <= hi` or `x < hi`. */
  datatype Interval = Interval(lo: int, loIncluded: bool, hi: int, hiIncluded: bool)

  predicate Holds(iv: Interval, income: int) {
    && (if iv.loIncluded then iv.lo <= income else iv.lo < income)
    && (if iv.hiIncluded then income <= iv.hi else income < iv.hi)
  }

  /** A category table: class labels paired with their predicates, in the
      order the dictionary iterates its keys (insertion order). */
  type CategoryTable = seq<(nat, Interval)>

  /** `categories`: 0 for [0, 50000], 1 for (50000, 100000], 2 for (100000, 151000). */
  function Categories(): (table: CategoryTable)
    ensures |table| == 3 && forall i :: 0 <= i < |table| ==> table[i].0 == i
  {
    [ (0, Interval(0, true, 50000, true)),
      (1, Interval(50000, false, 100000, true)),
      (2, Interval(100000, false, 151000, false)) ]
  }

  /** `get_label_for`: the key of the first predicate that holds, or `None`
      when the loop runs out (the function then returns Python's `None`). */
  function GetLabelFor(categories: CategoryTable, income: int): (r: Option<nat>)
    ensures r.None? <==> forall i :: 0 <= i < |categories| ==> !Holds(categories[i].1, income)
    ensures r.Some? ==>
      exists i :: 0 <= i < |categories| && categories[i].0 == r.value && Holds(categories[i].1, income)
        && forall j :: 0 <= j < i ==> !Holds(categories[j].1, income)
  {
    if |categories| == 0 then None
    else if Holds(categories[0].1, income) then Some(categories[0].0)
    else GetLabelFor(categories[1..], income)
  }

  /** The label of every income under the table, written out case by case. */
  lemma LabelOf(income: int)
    ensures GetLabelFor(Categories(), income) ==
      if 0 <= income <= 50000 then Some(0)
      else if 50000 < income <= 100000 then Some(1)
      else if 100000 < income < 151000 then Some(2)
      else None
  {
    var rest1 := Categories()[1..];
    var rest2 := rest1[1..];
    assert rest2[1..] == [];
    assert GetLabelFor(rest2, income) == if Holds(rest2[0].1, income) then Some(2) else None;
    assert GetLabelFor(rest1, income) ==
      if Holds(rest1[0].1, income) then Some(1) else GetLabelFor(rest2, income);
  }

  lemma LabelZeroExactly(income: int)
    ensures GetLabelFor(Categories(), income) == Some(0) <==> 0 <= income <= 50000
  {
    LabelOf(income);
  }

  lemma LabelOneExactly(income: int)
    ensures GetLabelFor(Categories(), income) == Some(1) <==> 50000 < income <= 100000
  {
    LabelOf(income);
  }

  lemma LabelTwoExactly(income: int)
    ensures GetLabelFor(Categories(), income) == Some(2) <==> 100000 < income < 151000
  {
    LabelOf(income);
  }

  lemma NoLabelExactly(income: int)
    ensures GetLabelFor(Categories(), income) == None <==> income < 0 || income >= 151000
  {
    LabelOf(income);
  }

  /** Any two predicates of the table that hold for the same income belong to
      the same label. */
  ghost predicate Unambiguous(categories: CategoryTable) {
    forall i, j, income :: 0 <= i < |categories| && 0 <= j < |categories|
      && Holds(categories[i].1, income) && Holds(categories[j].1, income)
      ==> categories[i].0 == categories[j].0
  }

  /** The three predicates are pairwise disjoint. */
  lemma CategoriesDisjoint()
    ensures forall i, j, income ::
      (0 <= i < j < |Categories()| ==> !(Holds(Categories()[i].1, income) && Holds(Categories()[j].1, income)))
    ensures Unambiguous(Categories())
  {
  }

  /** In an unambiguous table, the first match is whichever entry holds. */
  lemma FirstMatchIsAnyMatch(categories: CategoryTable, k: nat, income: int)
    requires Unambiguous(categories)
    requires k < |categories| && Holds(categories[k].1, income)
    ensures GetLabelFor(categories, income) == Some(categories[k].0)
  {
  }

  /** Because the predicates are disjoint, the label does not depend on the
      order the dictionary hands out its keys: any table listing the same
      entries gives every income the same label. */
  lemma LabelIgnoresKeyOrder(reordered: CategoryTable, income: int)
    requires forall e :: e in reordered <==> e in Categories()
    ensures GetLabelFor(reordered, income) == GetLabelFor(Categories(), income)
  {
    CategoriesDisjoint();
    var r := GetLabelFor(Categories(), income);
    if r.Some? {
      var k :| 0 <= k < |Categories()| && Categories()[k].0 == r.value && Holds(Categories()[k].1, income);
      assert Categories()[k] in reordered;
      var k' :| 0 <= k' < |reordered| && reordered[k'] == Categories()[k];
      assert Unambiguous(reordered) by {
        forall i, j, x | 0 <= i < |reordered| && 0 <= j < |reordered|
          && Holds(reordered[i].1, x) && Holds(reordered[j].1, x)
          ensures reordered[i].0 == reordered[j].0
        {
          assert reordered[i] in Categories() && reordered[j] in Categories();
        }
      }
      FirstMatchIsAnyMatch(reordered, k', income);
    } else {
      forall i | 0 <= i < |reordered| ensures !Holds(reordered[i].1, income) {
        assert reordered[i] in Categories();
      }
    }
  }

  /** Among labelled incomes, a larger income never gets a smaller label. */
  lemma LabelMonotone(a: int, b: int)
    requires a <= b
    requires GetLabelFor(Categories(), a).Some? && GetLabelFor(Categories(), b).Some?
    ensures GetLabelFor(Categories(), a).value <= GetLabelFor(Categories(), b).value
  {
    LabelOf(a);
    LabelOf(b);
  }

  /** `randint(1, 3) * 50000`: the income drawn for one sample. */
  function DrawnIncome(draw: int): (income: int)
    requires 1 <= draw <= 3
    ensures income == 50000 || income == 100000 || income == 150000
  {
    draw * 50000
  }

  /** Every drawn income gets a label: 50000 -> 0, 100000 -> 1, 150000 -> 2. */
  lemma DrawnIncomeLabel(draw: int)
    requires 1 <= draw <= 3
    ensures GetLabelFor(Categories(), DrawnIncome(draw)) == Some(draw - 1)
  {
    LabelOf(DrawnIncome(draw));
  }

  /** The text `"{}".format(label)` puts in the sample's directory name. */
  function LabelText(category: Option<nat>): (text: string)
    ensures |text| > 0 && '/' !in text
  {
    match category
    case Some(n) => ShowNat(n)
    case None => "None"
  }

  /** The directory `img.save` writes sample images into, under the dataset
      root (`train_dataset` or `test_dataset`). */
  function SampleDirectory(root: string, category: Option<nat>): string {
    root + "/" + LabelText(category)
  }

  const TrainDatasetSize: nat := 1000
  const TestDatasetSize: nat := 10

  /** One slot of a dataset list: the `0` it is pre-filled with, or the
      `(image, label)` pair stored there. The image is the picture of the
      income it shows; the model keeps that income in its place. */
  datatype Slot = Placeholder | Sample(shown: int, category: Option<nat>)

  /** `[0] * size`. */
  method NewDataset(size: nat) returns (dataset: array<Slot>)
    ensures fresh(dataset) && dataset.Length == size
    ensures forall i :: 0 <= i < size ==> dataset[i] == Placeholder
  {
    dataset := new Slot[size](_ => Placeholder);
  }

  /** `dataset[sample_index] = (img_array, get_label_for(categories, income))`. */
  method StoreSample(dataset: array<Slot>, sampleIndex: nat, income: int)
    requires sampleIndex < dataset.Length
    modifies dataset
    ensures dataset[sampleIndex] == Sample(income, GetLabelFor(Categories(), income))
    ensures forall j :: 0 <= j < dataset.Length && j != sampleIndex ==> dataset[j] == old(dataset[j])
  {
    dataset[sampleIndex] := Sample(income, GetLabelFor(Categories(), income));
  }

  /** One generation loop: for every `sample_index`, draw an income and store
      it with its label. `draws[i]` is what `randint(1, 3)` returns at step i. */
  method FillDataset(dataset: array<Slot>, draws: seq<int>)
    requires |draws| == dataset.Length
    requires forall i :: 0 <= i < |draws| ==> 1 <= draws[i] <= 3
    modifies dataset
    ensures forall i :: 0 <= i < dataset.Length ==>
      dataset[i] == Sample(DrawnIncome(draws[i]), Some(draws[i] - 1))
  {
    var sampleIndex := 0;
    while sampleIndex < dataset.Length
      invariant 0 <= sampleIndex <= dataset.Length
      invariant forall i :: 0 <= i < sampleIndex ==>
        dataset[i] == Sample(DrawnIncome(draws[i]), Some(draws[i] - 1))
      invariant forall i :: sampleIndex <= i < dataset.Length ==> dataset[i] == old(dataset[i])
    {
      var income := DrawnIncome(draws[sampleIndex]);
      DrawnIncomeLabel(draws[sampleIndex]);
      StoreSample(dataset, sampleIndex, income);
      sampleIndex := sampleIndex + 1;
    }
  }

  /** The whole script's list building: a training set of 1000 and a test set
      of 10 samples, each labelled from its own draw. */
  method GenerateDatasets(trainDraws: seq<int>, testDraws: seq<int>) returns (train: array<Slot>, test: array<Slot>)
    requires |trainDraws| == TrainDatasetSize && |testDraws| == TestDatasetSize
    requires forall i :: 0 <= i < |trainDraws| ==> 1 <= trainDraws[i] <= 3
    requires forall i :: 0 <= i < |testDraws| ==> 1 <= testDraws[i] <= 3
    ensures fresh(train) && fresh(test) && train != test
    ensures train.Length == TrainDatasetSize && test.Length == TestDatasetSize
    ensures forall i :: 0 <= i < train.Length ==>
      train[i] == Sample(DrawnIncome(trainDraws[i]), GetLabelFor(Categories(), DrawnIncome(trainDraws[i])))
    ensures forall i :: 0 <= i < test.Length ==>
      test[i] == Sample(DrawnIncome(testDraws[i]), GetLabelFor(Categories(), DrawnIncome(testDraws[i])))
    ensures forall i :: 0 <= i < train.Length ==> train[i].category == Some(trainDraws[i] - 1)
    ensures forall i :: 0 <= i < test.Length ==> test[i].category == Some(testDraws[i] - 1)
  {
    train := NewDataset(TrainDatasetSize);
    test := NewDataset(TestDatasetSize);
    FillDataset(train, trainDraws);
    FillDataset(test, testDraws);
    forall i | 0 <= i < train.Length ensures train[i].category == GetLabelFor(Categories(), DrawnIncome(trainDraws[i])) {
      DrawnIncomeLabel(trainDraws[i]);
    }
    forall i | 0 <= i < test.Length ensures test[i].category == GetLabelFor(Categories(), DrawnIncome(testDraws[i])) {
      DrawnIncomeLabel(testDraws[i]);
    }
  }
}
