/** The image-folder dataset the classifier is trained and evaluated on
    (ezkl/data/local_torch_datasets.py): an index of `(image path, class id)`
    entries built from a directory listing, read back by length and position. */
module TorchDataset {
  import opened Results
  import opened Decimal

  /** `path.split("/")[-1]`: the text after the last `/`, or all of `path`
      when it has none. */
  function LastSegment(path: string): string {
    if |path| == 0 || path[|path| - 1] == '/' then ""
    else LastSegment(path[..|path| - 1]) + [path[|path| - 1]]
  }

  /** The class name has no `/`, ends the path, and is either all of it or
      preceded by a `/`. */
  lemma {:induction false} LastSegmentSpec(path: string)
    ensures '/' !in LastSegment(path)
    ensures |LastSegment(path)| <= |path| && LastSegment(path) == path[|path| - |LastSegment(path)|..]
    ensures |LastSegment(path)| < |path| ==> path[|path| - |LastSegment(path)| - 1] == '/'
  {
    if |path| > 0 && path[|path| - 1] != '/' {
      var front := path[..|path| - 1];
      LastSegmentSpec(front);
      assert path[|path| - |LastSegment(path)|..] == path[|front| - |LastSegment(front)|..|front|] + [path[|path| - 1]];
    }
  }

  /** Whatever comes before, a `/`-free name after a `/` is the last segment. */
  lemma {:induction false} LastSegmentAfterSlash(parent: string, name: string)
    requires '/' !in name
    ensures LastSegment(parent + "/" + name) == name
  {
    var path := parent + "/" + name;
    if |name| > 0 {
      assert path[..|path| - 1] == parent + "/" + name[..|name| - 1];
      LastSegmentAfterSlash(parent, name[..|name| - 1]);
      assert path[|path| - 1] == name[|name| - 1];
    }
  }

  /** One index entry: an image path and the class id of its directory. */
  type Entry = (string, int)

  /** The `ValueError` `int(class_name)` raises at the first image of a class
      directory whose name is not a decimal integer. */
  datatype BuildError = NotAnInteger(className: string)

  /** The directory listing the constructor walks: each class directory
      (as `glob(imgs_path + "*")` lists it) with the PNG paths
      the PNG glob lists inside it, both in glob's order. */
  type Listing = seq<(string, seq<string>)>

  /** Every image of `imgs`, in order, paired with `classId`. */
  function Tagged(imgs: seq<string>, classId: int): (entries: seq<Entry>)
    ensures |entries| == |imgs|
    ensures forall m :: 0 <= m < |imgs| ==> entries[m] == (imgs[m], classId)
  {
    if |imgs| == 0 then [] else Tagged(imgs[..|imgs| - 1], classId) + [(imgs[|imgs| - 1], classId)]
  }

  /** `int(class_path.split("/")[-1])`. */
  function ClassId(classPath: string): Option<int> {
    ParseInt(LastSegment(classPath))
  }

  /** The entries one class directory adds: every image paired with the
      directory's class id. No image, no entry and no parse. */
  function DirectoryEntries(classPath: string, imgs: seq<string>): Result<seq<Entry>, BuildError> {
    if |imgs| == 0 then Success([])
    else if ClassId(classPath).None? then Failure(NotAnInteger(LastSegment(classPath)))
    else Success(Tagged(imgs, ClassId(classPath).value))
  }

  /** `self.data` once the constructor's loops have run, or the error they stop at. */
  function Index(listing: Listing): Result<seq<Entry>, BuildError> {
    if |listing| == 0 then Success([])
    else
      var earlier := Index(listing[..|listing| - 1]);
      var added := DirectoryEntries(listing[|listing| - 1].0, listing[|listing| - 1].1);
      if earlier.Failure? then earlier
      else if added.Failure? then added
      else Success(earlier.value + added.value)
  }

  /** The number of PNG paths across all class directories. */
  function TotalImages(listing: Listing): nat {
    if |listing| == 0 then 0 else TotalImages(listing[..|listing| - 1]) + |listing[|listing| - 1].1|
  }

  /** A class directory the constructor cannot get past: it holds an image and
      its name is not an integer. */
  ghost predicate Unparsable(listing: Listing, k: int) {
    0 <= k < |listing| && |listing[k].1| > 0 && ClassId(listing[k].0).None?
  }

  /** Construction fails exactly when some class directory is unparsable. */
  lemma {:induction false} IndexFails(listing: Listing)
    ensures Index(listing).Failure? <==> exists k :: Unparsable(listing, k)
  {
    if |listing| > 0 {
      var last := |listing| - 1;
      var front := listing[..last];
      IndexFails(front);
      if Index(front).Failure? {
        var k :| Unparsable(front, k);
        assert front[k] == listing[k];
        assert Unparsable(listing, k);
      } else {
        NoneUnparsableInFront(listing, front);
        assert Index(listing).Failure? <==> Unparsable(listing, last);
      }
    }
  }

  /** With no unparsable directory in the front of the listing, none of
      the listing's directories before the last is unparsable. */
  lemma NoneUnparsableInFront(listing: Listing, front: Listing)
    requires |listing| > 0 && front == listing[..|listing| - 1]
    requires forall k :: !Unparsable(front, k)
    ensures forall k :: 0 <= k < |front| ==> !Unparsable(listing, k)
  {
    forall k | 0 <= k < |front| ensures !Unparsable(listing, k) {
      assert front[k] == listing[k];
      assert !Unparsable(front, k);
    }
  }

  /** Construction stops at the first unparsable directory, and the error
      names that directory. */
  lemma {:induction false} IndexFailsFirst(listing: Listing, k: nat)
    requires Unparsable(listing, k)
    requires forall j :: 0 <= j < k ==> !Unparsable(listing, j)
    ensures Index(listing) == Failure(NotAnInteger(LastSegment(listing[k].0)))
  {
    var last := |listing| - 1;
    var front := listing[..last];
    if k < last {
      assert front[k] == listing[k];
      assert Unparsable(front, k);
      forall j | 0 <= j < k ensures !Unparsable(front, j) {
        assert front[j] == listing[j];
        assert !Unparsable(listing, j);
      }
      IndexFailsFirst(front, k);
    } else {
      forall j ensures !Unparsable(front, j) {
        if 0 <= j < last {
          assert front[j] == listing[j];
          assert !Unparsable(listing, j);
        }
      }
      IndexFails(front);
      FailsAtLast(listing);
    }
  }

  /** After a successful front, an unparsable last directory fails the walk. */
  lemma FailsAtLast(listing: Listing)
    requires |listing| > 0 && Index(listing[..|listing| - 1]).Success?
    requires Unparsable(listing, |listing| - 1)
    ensures Index(listing) == Failure(NotAnInteger(LastSegment(listing[|listing| - 1].0)))
  {
  }

  /** The entries built from the first k directories stay, unchanged and in
      place, at the front of the entries built from all of them. */
  lemma {:induction false} IndexExtends(listing: Listing, k: nat)
    requires k <= |listing| && Index(listing).Success?
    ensures Index(listing[..k]).Success?
    ensures |Index(listing[..k]).value| <= |Index(listing).value|
    ensures Index(listing[..k]).value == Index(listing).value[..|Index(listing[..k]).value|]
  {
    if k < |listing| {
      var front := listing[..|listing| - 1];
      assert front[..k] == listing[..k];
      IndexExtends(front, k);
      var whole := Index(listing).value;
      var part := Index(front).value;
      assert whole[..|part|] == part;
      assert whole[..|part|][..|Index(listing[..k]).value|] == whole[..|Index(listing[..k]).value|];
    } else {
      assert listing[..k] == listing;
    }
  }

  /** Every image path of the listing has one entry: the index is as long as
      the listing has PNG paths. */
  lemma {:induction false} IndexLength(listing: Listing)
    requires Index(listing).Success?
    ensures |Index(listing).value| == TotalImages(listing)
  {
    if |listing| > 0 {
      IndexLength(listing[..|listing| - 1]);
    }
  }

  /** The m-th image of the k-th directory sits at position
      (images of the directories before k) + m, paired with that directory's
      class id: entries are grouped by directory in listing order, and in
      image order within a directory. */
  lemma {:induction false} IndexPosition(listing: Listing, k: nat, m: nat)
    requires Index(listing).Success?
    requires k < |listing| && m < |listing[k].1|
    ensures ClassId(listing[k].0).Some?
    ensures TotalImages(listing[..k]) + m < |Index(listing).value|
    ensures Index(listing).value[TotalImages(listing[..k]) + m]
      == (listing[k].1[m], ClassId(listing[k].0).value)
  {
    var front := listing[..|listing| - 1];
    if k < |listing| - 1 {
      assert front[k] == listing[k] && front[..k] == listing[..k];
      IndexPosition(front, k, m);
    } else {
      assert front == listing[..k];
      IndexLength(front);
    }
  }

  /** Every entry pairs an image path with the parsed name of the directory it
      was listed under. */
  lemma {:induction false} IndexEntryOrigin(listing: Listing, i: nat)
    requires Index(listing).Success? && i < |Index(listing).value|
    ensures exists k, m ::
      && 0 <= k < |listing| && 0 <= m < |listing[k].1|
      && Index(listing).value[i].0 == listing[k].1[m]
      && ClassId(listing[k].0) == Some(Index(listing).value[i].1)
  {
    var front := listing[..|listing| - 1];
    var earlier := Index(front).value;
    if i < |earlier| {
      IndexEntryOrigin(front, i);
      var k, m :| 0 <= k < |front| && 0 <= m < |front[k].1|
        && earlier[i].0 == front[k].1[m] && ClassId(front[k].0) == Some(earlier[i].1);
      assert front[k] == listing[k];
    } else {
      var k := |listing| - 1;
      assert listing[k].1[i - |earlier|] == Index(listing).value[i].0;
    }
  }

  /** The constructor's inner loop over one class directory: append
      `(img_path, int(class_name))` for each of its images. `int` is applied
      at every image and raises at the first one if the name does not parse. */
  method AppendDirectory(data: seq<Entry>, classPath: string, imgs: seq<string>)
    returns (r: Result<seq<Entry>, BuildError>)
    ensures DirectoryEntries(classPath, imgs).Failure? ==> r == DirectoryEntries(classPath, imgs)
    ensures DirectoryEntries(classPath, imgs).Success? ==> r == Success(data + DirectoryEntries(classPath, imgs).value)
  {
    var className := LastSegment(classPath);
    var extended := data;
    var m := 0;
    while m < |imgs|
      invariant 0 <= m <= |imgs|
      invariant m > 0 ==> ClassId(classPath).Some?
      invariant m > 0 ==> extended == data + Tagged(imgs[..m], ClassId(classPath).value)
      invariant m == 0 ==> extended == data
    {
      var classId := ParseInt(className);
      if classId.None? {
        return Failure(NotAnInteger(className));
      }
      extended := extended + [(imgs[m], classId.value)];
      assert imgs[..m + 1][..m] == imgs[..m];
      m := m + 1;
    }
    assert imgs[..m] == imgs;
    assert |imgs| == 0 ==> extended == data + [];
    r := Success(extended);
  }

  /** The constructor's outer loop: for each listed class directory, in order,
      run the inner loop; stop at the first `int()` failure. */
  method CollectEntries(listing: Listing) returns (r: Result<seq<Entry>, BuildError>)
    ensures r == Index(listing)
  {
    var data: seq<Entry> := [];
    var k := 0;
    while k < |listing|
      invariant 0 <= k <= |listing|
      invariant Index(listing[..k]) == Success(data)
    {
      assert listing[..k + 1][..k] == listing[..k];
      var extended := AppendDirectory(data, listing[k].0, listing[k].1);
      if extended.Failure? {
        AbortPersists(listing, k + 1);
        return extended;
      }
      data := extended.value;
      k := k + 1;
    }
    assert listing[..k] == listing;
    r := Success(data);
  }

  /** Once the index of a prefix has failed, the whole index fails the same way. */
  lemma {:induction false} AbortPersists(listing: Listing, k: nat)
    requires k <= |listing| && Index(listing[..k]).Failure?
    ensures Index(listing) == Index(listing[..k])
    decreases |listing| - k
  {
    if k < |listing| {
      assert listing[..k + 1][..k] == listing[..k];
      AbortPersists(listing, k + 1);
    } else {
      assert listing[..k] == listing;
    }
  }

  /** `__getitem__` on an index outside the list raises `IndexError`. */
  datatype ItemError = IndexOutOfRange(idx: int)

  /** `TrainDataset`: the root path, the index of entries and the image size
      images are resized to. `listing` is the directory listing the index was
      built from. */
  class TrainDataset {
    const imgsPath: string
    ghost const listing: Listing
    var data: seq<Entry>
    const imgDim: (int, int)

    ghost predicate Valid()
      reads this
    {
      Index(listing) == Success(data)
    }

    constructor Init(path: string, ghost walked: Listing, entries: seq<Entry>)
      requires Index(walked) == Success(entries)
      ensures Valid()
      ensures imgsPath == path && listing == walked && data == entries && imgDim == (800, 603)
    {
      imgsPath := path;
      listing := walked;
      data := entries;
      imgDim := (800, 603);
    }

    /** `__len__`: one per PNG path across all class directories. */
    function Len(): (n: nat)
      reads this
      requires Valid()
      ensures n == TotalImages(listing)
    {
      IndexLength(listing);
      |data|
    }

    /** `__getitem__(idx)`, without the image decoding: the entry's image path
        (which `cv2.imread` opens) and its class id. Python's list indexing
        counts a negative `idx` from the end. */
    method GetItem(idx: int) returns (r: Result<Entry, ItemError>)
      requires Valid()
      ensures r.Success? <==> -|data| <= idx < |data|
      ensures r.Failure? ==> r.error == IndexOutOfRange(idx)
      ensures r.Success? ==> r.value == data[if idx < 0 then idx + |data| else idx]
      ensures r.Success? ==>
        exists k, m :: 0 <= k < |listing| && 0 <= m < |listing[k].1|
          && r.value.0 == listing[k].1[m] && ClassId(listing[k].0) == Some(r.value.1)
    {
      if idx < -|data| || |data| <= idx {
        return Failure(IndexOutOfRange(idx));
      }
      var position := if idx < 0 then idx + |data| else idx;
      IndexEntryOrigin(listing, position);
      var (imgPath, classId) := data[position];
      r := Success((imgPath, classId));
    }
  }

  /** `TrainDataset(path)`: walk the listing of `path` and build the index, or
      fail as the constructor's `int()` does. */
  method Open(path: string, listing: Listing) returns (r: Result<TrainDataset, BuildError>)
    ensures r.Failure? <==> exists k :: Unparsable(listing, k)
    ensures r.Failure? ==> Index(listing).Failure? && r.error == Index(listing).error
    ensures r.Success? ==> fresh(r.value) && r.value.Valid()
    ensures r.Success? ==>
      && r.value.imgsPath == path && r.value.listing == listing && r.value.data == Index(listing).value
      && r.value.imgDim == (800, 603)
  {
    IndexFails(listing);
    var collected := CollectEntries(listing);
    if collected.Failure? {
      return Failure(collected.error);
    }
    var dataset := new TrainDataset.Init(path, listing, collected.value);
    r := Success(dataset);
  }
}
