/** How the two halves meet: the generator writes each sample image into a
    directory named after its label, and the loader reads the class id back
    from that directory's name. */
module Pipeline {
  import opened Results
  import opened Decimal
  import opened IncomeLabels
  import opened TorchDataset

  /** A directory named after a label gives the loader that label back. */
  lemma {:induction false} LabelDirectoryRoundTrip(root: string, n: nat)
    ensures ClassId(SampleDirectory(root, Some(n))) == Some(n)
  {
    var name := ShowNat(n);
    assert forall i :: 0 <= i < |name| ==> name[i] != '/';
    LastSegmentAfterSlash(root, name);
    ParseShowInt(n);
  }

  /** Every generated sample lands in a directory whose name the loader parses
      back to the label the generator gave it (`draw - 1`). */
  lemma GeneratedSampleReloads(root: string, draw: int)
    requires 1 <= draw <= 3
    ensures ClassId(SampleDirectory(root, GetLabelFor(Categories(), DrawnIncome(draw)))) == Some(draw - 1)
  {
    DrawnIncomeLabel(draw);
    var category := GetLabelFor(Categories(), DrawnIncome(draw));
    assert category == Some(draw - 1);
    LabelDirectoryRoundTrip(root, draw - 1);
    assert SampleDirectory(root, category) == SampleDirectory(root, Some(draw - 1));
  }

  /** An income outside every category would be sent to `<root>/None`, a
      directory name the loader cannot parse (the generator creates only the
      directories 0, 1 and 2, so the save itself would fail). */
  lemma UnlabelledSampleBreaksLoader(root: string, income: int)
    requires GetLabelFor(Categories(), income) == None
    ensures ClassId(SampleDirectory(root, GetLabelFor(Categories(), income))) == None
  {
    LastSegmentAfterSlash(root, "None");
    ParseIntNeedsDigit("None");
  }
}
