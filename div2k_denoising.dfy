/*
 * Model of backend/datasets/div2k_denoising.py.
 *
 * The dataset keeps the names of a directory listing that look like PNG or
 * JPEG files, reports how many it kept, and reads item idx from the path
 * root_dir joined with the idx-th kept name. The listing (os.listdir) is an
 * input; opening, cropping and adding noise to the image are not modelled.
 */
module Div2kDenoising {

  // ---------------------------------------------------------------------------
  // Strings: lower-casing, suffixes, path joining
  // ---------------------------------------------------------------------------

  /** str.lower() on one character, restricted to ASCII letters. */
  function LowerChar(c: char): char
  {
    if 'A' <= c <= 'Z' then (c as int + 32) as char else c
  }

  function Lower(s: string): (r: string)
    ensures |r| == |s|
    ensures forall i :: 0 <= i < |s| ==> r[i] == LowerChar(s[i])
  {
    seq(|s|, i requires 0 <= i < |s| => LowerChar(s[i]))
  }

  predicate EndsWith(s: string, suffix: string)
  {
    |suffix| <= |s| && s[|s| - |suffix|..] == suffix
  }

  /** str.endswith with a tuple of suffixes: true when any one of them ends s. */
  predicate EndsWithAny(s: string, suffixes: seq<string>)
  {
    exists x :: x in suffixes && EndsWith(s, x)
  }

  /** The extensions the dataset accepts, tested against the lower-cased name. */
  const ImageSuffixes: seq<string> := [".png", ".jpg", ".jpeg"]

  /** f.lower().endswith(('.png', '.jpg', '.jpeg')); the shortest such name is ".png" itself. */
  predicate IsImageName(f: string): (b: bool)
    ensures b ==> |f| >= 4
  {
    EndsWithAny(Lower(f), ImageSuffixes)
  }

  /** The tuple test spelled out for the three suffixes. */
  lemma ImageNameCases(f: string)
    ensures IsImageName(f) <==>
      EndsWith(Lower(f), ".png") || EndsWith(Lower(f), ".jpg") || EndsWith(Lower(f), ".jpeg")
  {
    assert ImageSuffixes[0] == ".png" && ImageSuffixes[1] == ".jpg" && ImageSuffixes[2] == ".jpeg";
  }

  /** The last |x| characters of f spell x, letter case aside. */
  predicate EndsWithIgnoringCase(f: string, x: string)
  {
    |x| <= |f| && forall k :: 0 <= k < |x| ==> LowerChar(f[|f| - |x| + k]) == x[k]
  }

  lemma EndsWithLower(f: string, x: string)
    ensures EndsWith(Lower(f), x) <==> EndsWithIgnoringCase(f, x)
  {
    var l := Lower(f);
    if |x| <= |f| {
      var t := l[|l| - |x|..];
      assert forall k :: 0 <= k < |x| ==> t[k] == LowerChar(f[|f| - |x| + k]);
    }
  }

  /** The same test without building the lower-cased copy. */
  lemma ImageNameCharwise(f: string)
    ensures IsImageName(f) <==>
      EndsWithIgnoringCase(f, ".png") || EndsWithIgnoringCase(f, ".jpg") || EndsWithIgnoringCase(f, ".jpeg")
  {
    ImageNameCases(f);
    EndsWithLower(f, ".png");
    EndsWithLower(f, ".jpg");
    EndsWithLower(f, ".jpeg");
  }

  /**
   * os.path.join(a, b) with POSIX rules (posixpath.join): an absolute b
   * replaces a; otherwise b is appended, with exactly one '/' in between
   * unless a is empty or already ends in '/'.
   */
  function Join(a: string, b: string): (path: string)
    ensures EndsWith(path, b)
    ensures |b| > 0 && b[0] == '/' ==> path == b
    ensures !(|b| > 0 && b[0] == '/') ==> |a| <= |path| && path[..|a|] == a
    ensures !(|b| > 0 && b[0] == '/') ==>
      |path| == |a| + |b| + (if a == [] || a[|a| - 1] == '/' then 0 else 1)
    ensures !(|b| > 0 && b[0] == '/') && !(a == [] || a[|a| - 1] == '/') ==> path[|a|] == '/'
  {
    if |b| > 0 && b[0] == '/' then b
    else if a == [] || a[|a| - 1] == '/' then a + b
    else a + "/" + b
  }

  // ---------------------------------------------------------------------------
  // The filter
  // ---------------------------------------------------------------------------

  /** a is obtained from b by deleting elements (order is kept). */
  predicate IsSubsequence(a: seq<string>, b: seq<string>)
    decreases |b|
  {
    a == [] || (b != [] && ((a[0] == b[0] && IsSubsequence(a[1..], b[1..])) || IsSubsequence(a, b[1..])))
  }

  /**
   * The list comprehension of the constructor: the image names of the listing,
   * in listing order.
   */
  function FilterImages(names: seq<string>): (kept: seq<string>)
    ensures |kept| <= |names|
    ensures forall i :: 0 <= i < |kept| ==> IsImageName(kept[i])
  {
    if names == [] then []
    else (if IsImageName(names[0]) then [names[0]] else []) + FilterImages(names[1..])
  }

  /** The kept list is a subsequence of the listing: the relative order is preserved. */
  lemma {:induction false} FilterKeepsOrder(names: seq<string>)
    ensures IsSubsequence(FilterImages(names), names)
  {
    if names != [] {
      FilterKeepsOrder(names[1..]);
      var rest := FilterImages(names[1..]);
      if IsImageName(names[0]) {
        assert FilterImages(names) == [names[0]] + rest;
        assert ([names[0]] + rest)[1..] == rest;
      } else {
        assert FilterImages(names) == rest;
      }
    }
  }

  /** Each image name is kept exactly as often as it occurs; nothing else is kept. */
  lemma {:induction false} FilterCounts(names: seq<string>)
    ensures forall x :: multiset(FilterImages(names))[x] == if IsImageName(x) then multiset(names)[x] else 0
  {
    if names != [] {
      FilterCounts(names[1..]);
      assert names == [names[0]] + names[1..];
    }
  }

  /** A name is kept if and only if it is an image name that occurs in the listing. */
  lemma KeptIff(names: seq<string>, f: string)
    ensures f in FilterImages(names) <==> f in names && IsImageName(f)
  {
    var kept := FilterImages(names);
    FilterCounts(names);
    assert f in kept <==> multiset(kept)[f] > 0;
    assert f in names <==> multiset(names)[f] > 0;
  }

  /** Concrete names: case-insensitive, and only the end of the name counts. */
  lemma KeptExamples()
    ensures IsImageName("IMG_01.JPG")
    ensures IsImageName("0001.png")
    ensures IsImageName("photo.Jpeg")
  {
    var l1 := Lower("IMG_01.JPG");
    assert l1[6] == '.' && l1[7] == 'j' && l1[8] == 'p' && l1[9] == 'g';
    assert l1[6..] == ".jpg";
    ImageNameCases("IMG_01.JPG");
    var l2 := Lower("0001.png");
    assert l2[4] == '.' && l2[5] == 'p' && l2[6] == 'n' && l2[7] == 'g';
    assert l2[4..] == ".png";
    ImageNameCases("0001.png");
    var l3 := Lower("photo.Jpeg");
    assert l3[5] == '.' && l3[6] == 'j' && l3[7] == 'p' && l3[8] == 'e' && l3[9] == 'g';
    assert l3[5..] == ".jpeg";
    ImageNameCases("photo.Jpeg");
  }

  lemma DroppedExamples()
    ensures !IsImageName("a.png.bak")
    ensures !IsImageName("b.gif")
    ensures !IsImageName("png")
  {
    var l1 := Lower("a.png.bak");
    assert l1[6] == 'b' && l1[4] == 'g';
    assert l1[5..][1] == 'b' && l1[4..][0] == 'g';
    var l2 := Lower("b.gif");
    assert l2[2] == 'g' && l2[0] == 'b';
    assert l2[1..][1] == 'g';
    assert |Lower("png")| == 3;
    ImageNameCases("a.png.bak");
    ImageNameCases("b.gif");
    ImageNameCases("png");
  }

  /** One step of the comprehension: the first name is kept or dropped on its own. */
  lemma FilterCons(x: string, rest: seq<string>)
    ensures FilterImages([x] + rest) == (if IsImageName(x) then [x] else []) + FilterImages(rest)
  {
    assert ([x] + rest)[1..] == rest;
  }

  lemma FilterFour(a: string, b: string, c: string, d: string)
    requires !IsImageName(a) && IsImageName(b) && !IsImageName(c) && IsImageName(d)
    ensures FilterImages([a, b, c, d]) == [b, d]
  {
    FilterCons(d, []);
    FilterCons(c, [d]);
    FilterCons(b, [c, d]);
    FilterCons(a, [b, c, d]);
    assert [a, b, c, d] == [a] + [b, c, d];
    assert [b, c, d] == [b] + [c, d];
    assert [c, d] == [c] + [d];
    assert [d] == [d] + [];
  }

  /** A mixed listing keeps its image names, in listing order. */
  lemma FilterExample()
    ensures FilterImages(["b.gif", "IMG_01.JPG", "a.png.bak", "0001.png"]) == ["IMG_01.JPG", "0001.png"]
  {
    KeptExamples();
    DroppedExamples();
    FilterFour("b.gif", "IMG_01.JPG", "a.png.bak", "0001.png");
  }

  /** Lower-casing distributes over concatenation. */
  lemma LowerAppend(p: string, f: string)
    ensures Lower(p + f) == Lower(p) + Lower(f)
  {
    assert forall i :: 0 <= i < |p + f| ==> Lower(p + f)[i] == (Lower(p) + Lower(f))[i];
  }

  /** Only the last five characters of a name decide whether it is kept. */
  lemma SuffixOnly(p: string, f: string)
    requires |f| >= 5
    ensures IsImageName(p + f) <==> IsImageName(f)
  {
    LowerAppend(p, f);
    var l := Lower(p + f);
    var lf := Lower(f);
    assert l == Lower(p) + lf;
    forall s | s in ImageSuffixes ensures EndsWith(l, s) <==> EndsWith(lf, s) {
      assert l[|l| - |s|..] == lf[|lf| - |s|..];
    }
    assert ".png" in ImageSuffixes && ".jpg" in ImageSuffixes && ".jpeg" in ImageSuffixes;
  }

  /** Upper and lower case are not told apart. */
  lemma CaseInsensitive(f: string)
    ensures IsImageName(f) <==> IsImageName(Lower(f))
  {
    assert Lower(Lower(f)) == Lower(f);
  }

  // ---------------------------------------------------------------------------
  // The dataset
  // ---------------------------------------------------------------------------

  /** The fields the constructor stores; they are never reassigned afterwards. */
  datatype Dataset = Dataset(
    rootDir: string,
    filenames: seq<string>,
    patchSize: int,
    noiseStdRange: (int, int))

  /** Every stored name passed the filter. */
  predicate Valid(ds: Dataset)
  {
    forall i :: 0 <= i < |ds.filenames| ==> IsImageName(ds.filenames[i])
  }

  /** DIV2KDenoisingDataset(root_dir, patch_size, noise_std_range), with `listing` = os.listdir(root_dir). */
  function NewDataset(rootDir: string, listing: seq<string>, patchSize: int := 128,
                      noiseStdRange: (int, int) := (5, 50)): (ds: Dataset)
    ensures Valid(ds)
  {
    Dataset(rootDir, FilterImages(listing), patchSize, noiseStdRange)
  }

  /** The constructor stores its arguments unchanged and its defaults are 128 and (5, 50). */
  lemma ConstructorFields(rootDir: string, listing: seq<string>, patchSize: int, noiseStdRange: (int, int))
    ensures var ds := NewDataset(rootDir, listing, patchSize, noiseStdRange);
      ds.rootDir == rootDir && ds.patchSize == patchSize && ds.noiseStdRange == noiseStdRange
    ensures var ds := NewDataset(rootDir, listing);
      ds.patchSize == 128 && ds.noiseStdRange == (5, 50)
  {
  }

  /** __len__: exactly the indices -len <= idx < len are accepted by __getitem__. */
  function Len(ds: Dataset): (n: nat)
    ensures forall idx: int :: ItemPath(ds, idx).Path? <==> -(n as int) <= idx < n
  {
    |ds.filenames|
  }

  /** Positions of the image names in a listing. */
  ghost function ImageIndices(names: seq<string>): set<nat>
  {
    set i: nat | i < |names| && IsImageName(names[i])
  }

  lemma {:induction false} FilterSnoc(names: seq<string>, x: string)
    ensures FilterImages(names + [x]) == FilterImages(names) + (if IsImageName(x) then [x] else [])
  {
    var t := names + [x];
    var last: seq<string> := if IsImageName(x) then [x] else [];
    if names == [] {
      assert t == [x] && t[1..] == [];
      assert FilterImages(t) == last + FilterImages([]);
    } else {
      var head: seq<string> := if IsImageName(names[0]) then [names[0]] else [];
      assert t[0] == names[0] && t[1..] == names[1..] + [x];
      FilterSnoc(names[1..], x);
      assert FilterImages(t) == head + (FilterImages(names[1..]) + last);
      assert FilterImages(names) == head + FilterImages(names[1..]);
    }
  }

  lemma ImageIndicesSnoc(names: seq<string>)
    requires names != []
    ensures var n := |names| - 1;
      ImageIndices(names) == ImageIndices(names[..n]) + (if IsImageName(names[n]) then {n} else {})
  {
    var n := |names| - 1;
    var init := names[..n];
    forall i: nat | i < n ensures init[i] == names[i] {
    }
  }

  /** __len__ of a fresh dataset is the number of positions of the listing holding an image name. */
  lemma {:induction false} LenCountsImages(rootDir: string, listing: seq<string>)
    ensures Len(NewDataset(rootDir, listing)) == |ImageIndices(listing)|
  {
    if listing == [] {
      assert ImageIndices(listing) == {};
    } else {
      var n := |listing| - 1;
      var init := listing[..n];
      LenCountsImages(rootDir, init);
      assert listing == init + [listing[n]];
      FilterSnoc(init, listing[n]);
      ImageIndicesSnoc(listing);
      assert n !in ImageIndices(init);
    }
  }

  datatype DatasetError = IndexError

  datatype PathResult = Path(path: string) | Failure(error: DatasetError)

  /**
   * The path __getitem__(idx) opens: os.path.join(root_dir, filenames[idx]),
   * with Python's indexing (negative idx counts from the end, anything out of
   * range raises IndexError).
   */
  function ItemPath(ds: Dataset, idx: int): (r: PathResult)
    ensures r.Path? <==> -|ds.filenames| <= idx < |ds.filenames|
    ensures 0 <= idx < |ds.filenames| ==> r == Path(Join(ds.rootDir, ds.filenames[idx]))
    ensures -|ds.filenames| <= idx < 0 ==> r == Path(Join(ds.rootDir, ds.filenames[|ds.filenames| + idx]))
  {
    var n := |ds.filenames|;
    if -n <= idx < n then
      var i := if idx < 0 then n + idx else idx;
      Path(Join(ds.rootDir, ds.filenames[i]))
    else
      Failure(IndexError)
  }

  /** Item idx and item idx - len read the same file. */
  lemma NegativeIndexWraps(ds: Dataset, idx: int)
    requires 0 <= idx < Len(ds)
    ensures ItemPath(ds, idx - Len(ds) as int) == ItemPath(ds, idx)
  {
    var j := idx - |ds.filenames|;
    assert j < 0 && |ds.filenames| + j == idx;
  }

  /**
   * Every file the dataset reads is root_dir joined with a name of the listing
   * that passed the filter.
   */
  lemma OnlyKeptNamesAreRead(rootDir: string, listing: seq<string>, idx: int)
    ensures var r := ItemPath(NewDataset(rootDir, listing), idx);
      r.Path? ==> exists f :: f in listing && IsImageName(f) && r.path == Join(rootDir, f)
  {
    var ds := NewDataset(rootDir, listing);
    var r := ItemPath(ds, idx);
    if r.Path? {
      var i := if idx < 0 then |ds.filenames| + idx else idx;
      KeptIff(listing, ds.filenames[i]);
    }
  }

  /** Conversely, every image name of the listing is read by some index in 0 .. len-1. */
  lemma EveryKeptNameIsRead(rootDir: string, listing: seq<string>, f: string)
    requires f in listing && IsImageName(f)
    ensures var ds := NewDataset(rootDir, listing);
      exists idx :: 0 <= idx < Len(ds) && ItemPath(ds, idx) == Path(Join(rootDir, f))
  {
    var ds := NewDataset(rootDir, listing);
    KeptIff(listing, f);
    var idx :| 0 <= idx < |ds.filenames| && ds.filenames[idx] == f;
    assert ItemPath(ds, idx) == Path(Join(rootDir, f));
  }
}
