/**
 * The image records of both phases and how they are built
 * (Experiment.js, generateImageArrays and shuffleArray).
 *
 * Math.random() is not modelled: every call is replaced by a number the
 * caller supplies, in [0, 1) as the source's random source guarantees.
 */
module Images {
  import opened Wrappers

  datatype Size = Large | Small | Medium

  /** The size as the source spells it ('large', 'small', 'medium'). */
  function SizeName(s: Size): (r: string)
    ensures |r| > 0 && ',' !in r && '"' !in r && '\n' !in r
    ensures r == "large" <==> s == Large
    ensures r == "small" <==> s == Small
  {
    match s
    case Large => "large"
    case Small => "small"
    case Medium => "medium"
  }

  /**
   * An image record { id, filename, size, phase, originalIndex?, isOld? }.
   * A filename is None where the source reads past the end of its file
   * list (undefined); originalIndex is present on Phase-1 records and on
   * the Phase-2 copies of them; isOld is present on Phase-2 records only.
   */
  datatype Image = Image(
    id: int,
    filename: Option<string>,
    size: Size,
    phase: nat,
    originalIndex: Option<nat>,
    isOld: Option<bool>)

  /** `list[k]`, undefined past the end. */
  function At(list: seq<string>, k: nat): (r: Option<string>)
    ensures r.Some? <==> k < |list|
    ensures r.Some? ==> r.value == list[k]
  {
    if k < |list| then Some(list[k]) else None
  }

  // ----- Shuffle ----------------------------------------------------------

  /** Math.floor(u * n) for a random u in [0, 1): an index below n. */
  function RandomIndex(u: real, n: nat): (j: nat)
    requires 0.0 <= u < 1.0 && n > 0
    ensures j < n
  {
    var x := u * n as real;
    assert 0.0 <= x < n as real by {
      assert (1.0 - u) * n as real > 0.0;
    }
    x.Floor
  }

  /** Draws the source takes from Math.random(): each in [0, 1). */
  predicate InUnitInterval(draws: seq<real>)
  {
    forall k :: 0 <= k < |draws| ==> 0.0 <= draws[k] < 1.0
  }

  /** perm lists 0 .. n-1, each exactly once. */
  ghost predicate IsPermutation(perm: seq<nat>, n: nat)
  {
    && |perm| == n
    && (forall k :: 0 <= k < n ==> perm[k] < n)
    && (forall j, k :: 0 <= j < k < n ==> perm[j] != perm[k])
  }

  /** s with the elements at i and j exchanged. */
  function Swapped<T>(s: seq<T>, i: nat, j: nat): (r: seq<T>)
    requires i < |s| && j < |s|
    ensures |r| == |s| && r[i] == s[j] && r[j] == s[i]
    ensures forall k :: 0 <= k < |s| && k != i && k != j ==> r[k] == s[k]
  {
    s[i := s[j]][j := s[i]]
  }

  lemma SwappedSameMultiset<T>(s: seq<T>, i: nat, j: nat)
    requires i < |s| && j < |s|
    ensures multiset(Swapped(s, i, j)) == multiset(s)
  {
    var t := s[i := s[j]];
    assert multiset(t) == multiset(s) - multiset{s[i]} + multiset{s[j]};
    assert multiset(t[j := s[i]]) == multiset(t) - multiset{t[j]} + multiset{s[i]};
  }

  /** a holds, at each position k, the element of items at perm[k]. */
  ghost predicate Arranged<T>(a: seq<T>, items: seq<T>, perm: seq<nat>)
  {
    && |a| == |perm| == |items|
    && forall k :: 0 <= k < |a| ==> perm[k] < |items| && a[k] == items[perm[k]]
  }

  lemma SwapKeepsArrangement<T>(a: seq<T>, items: seq<T>, perm: seq<nat>, i: nat, j: nat)
    requires Arranged(a, items, perm) && IsPermutation(perm, |items|) && i < |a| && j < |a|
    ensures Arranged(Swapped(a, i, j), items, Swapped(perm, i, j))
    ensures IsPermutation(Swapped(perm, i, j), |items|)
  {
    var p := Swapped(perm, i, j);
    forall x, y | 0 <= x < y < |items| ensures p[x] != p[y] {
      var x' := if x == i then j else if x == j then i else x;
      var y' := if y == i then j else if y == j then i else y;
      assert p[x] == perm[x'] && p[y] == perm[y'] && x' != y';
      if x' < y' {
        assert perm[x'] != perm[y'];
      } else {
        assert perm[y'] != perm[x'];
      }
    }
  }

  /**
   * shuffleArray: Fisher-Yates on a copy of `items`. draws[i] is the random
   * number drawn when the loop index is i (draws[0] is never drawn). The
   * result holds the same elements, each moved from the position perm names.
   */
  method Shuffle<T>(items: seq<T>, draws: seq<real>) returns (r: seq<T>, ghost perm: seq<nat>)
    requires |draws| == |items| && InUnitInterval(draws)
    ensures |r| == |items|
    ensures multiset(r) == multiset(items)
    ensures IsPermutation(perm, |items|)
    ensures forall k :: 0 <= k < |r| ==> r[k] == items[perm[k]]
    ensures |items| <= 1 ==> r == items
  {
    var shuffled := new T[|items|](k requires 0 <= k < |items| => items[k]);
    assert shuffled[..] == items;
    perm := seq(|items|, k => k);
    var i := shuffled.Length - 1;
    while i > 0
      invariant -1 <= i < shuffled.Length
      invariant IsPermutation(perm, |items|)
      invariant Arranged(shuffled[..], items, perm)
      invariant multiset(shuffled[..]) == multiset(items)
    {
      var j := RandomIndex(draws[i], i + 1);
      ghost var before := shuffled[..];
      shuffled[i], shuffled[j] := shuffled[j], shuffled[i];
      assert shuffled[..] == Swapped(before, i, j);
      SwappedSameMultiset(before, i, j);
      SwapKeepsArrangement(before, items, perm, i, j);
      perm := Swapped(perm, i, j);
      i := i - 1;
    }
    r := shuffled[..];
    assert |items| <= 1 ==> r == items;
  }

  // ----- Ids ---------------------------------------------------------------

  predicate DistinctIds(s: seq<Image>)
  {
    forall j, k :: 0 <= j < k < |s| ==> s[j].id != s[k].id
  }

  /** True when some record of the list has this id (`list.some(img => img.id === id)`). */
  predicate HasId(s: seq<Image>, id: int)
  {
    exists k :: 0 <= k < |s| && s[k].id == id
  }

  /** Math.max over the ids of a non-empty list. */
  function MaxId(s: seq<Image>): (m: int)
    requires |s| > 0
    ensures forall k :: 0 <= k < |s| ==> s[k].id <= m
    ensures exists k :: 0 <= k < |s| && s[k].id == m
  {
    if |s| == 1 then s[0].id
    else
      var rest := MaxId(s[1..]);
      assert forall k :: 1 <= k < |s| ==> s[k] == s[1..][k - 1];
      if s[0].id >= rest then s[0].id else rest
  }

  /** Reordering by a permutation keeps ids distinct. */
  lemma PermutedDistinct(r: seq<Image>, items: seq<Image>, perm: seq<nat>)
    requires DistinctIds(items) && IsPermutation(perm, |items|) && |r| == |items|
    requires Arranged(r, items, perm)
    ensures DistinctIds(r)
  {
    forall j, k | 0 <= j < k < |r| ensures r[j].id != r[k].id {
      if perm[j] < perm[k] {
        assert items[perm[j]].id != items[perm[k]].id;
      } else {
        assert items[perm[k]].id != items[perm[j]].id;
      }
    }
  }

  // ----- Phase 1 -----------------------------------------------------------


  /** The Phase-1 record with this id, before shuffling: its file is the (id-1)-th of the shuffled list. */
  function Phase1Record(largeCount: nat, files: seq<string>, id: nat): Image
    requires id >= 1
  {
    Image(id, At(files, id - 1), if id <= largeCount then Large else Small, 1, Some(id - 1), None)
  }

  /** The first n records the two Phase-1 loops push, in push order. */
  function Phase1Records(largeCount: nat, files: seq<string>, n: nat): (r: seq<Image>)
    ensures |r| == n
  {
    if n == 0 then [] else Phase1Records(largeCount, files, n - 1) + [Phase1Record(largeCount, files, n)]
  }

  /** The loops push record number n + 1: large while n < largeCount, small after. */
  lemma Phase1RecordsPush(largeCount: nat, files: seq<string>, n: nat)
    ensures Phase1Records(largeCount, files, n + 1)
         == Phase1Records(largeCount, files, n)
            + [Image(n + 1, At(files, n), if n < largeCount then Large else Small, 1, Some(n), None)]
  {
  }

  /** Position k of the pushed list holds the record with id k + 1. */
  lemma {:induction false} Phase1RecordsAt(largeCount: nat, files: seq<string>, n: nat, k: nat)
    requires k < n
    ensures Phase1Records(largeCount, files, n)[k] == Phase1Record(largeCount, files, k + 1)
  {
    if k < n - 1 {
      Phase1RecordsAt(largeCount, files, n - 1, k);
    }
  }

  /** What every Phase-1 list built from this configuration satisfies. */
  ghost predicate IsPhase1Set(images: seq<Image>, largeCount: nat, smallCount: nat, files: seq<string>)
  {
    && |images| == largeCount + smallCount
    && multiset(images) == multiset(Phase1Records(largeCount, files, largeCount + smallCount))
    && DistinctIds(images)
    && (forall id :: 1 <= id <= largeCount + smallCount ==> HasId(images, id))
    && (forall k :: 0 <= k < |images| ==>
          1 <= images[k].id <= largeCount + smallCount &&
          images[k] == Phase1Record(largeCount, files, images[k].id))
  }

  /**
   * The Phase-1 half of generateImageArrays: shuffle the old-image files,
   * push largeCount large then smallCount small records with consecutive
   * ids, and shuffle the result.
   */
  method BuildPhase1Images(largeCount: nat, smallCount: nat, oldFiles: seq<string>,
                           fileDraws: seq<real>, imageDraws: seq<real>)
    returns (images: seq<Image>, ghost shuffledFiles: seq<string>)
    requires |fileDraws| == |oldFiles| && InUnitInterval(fileDraws)
    requires |imageDraws| == largeCount + smallCount && InUnitInterval(imageDraws)
    ensures multiset(shuffledFiles) == multiset(oldFiles)
    ensures IsPhase1Set(images, largeCount, smallCount, shuffledFiles)
    ensures |images| == largeCount + smallCount && DistinctIds(images)
    ensures forall id :: 1 <= id <= largeCount + smallCount ==> HasId(images, id)
    ensures forall k :: 0 <= k < |images| ==> (images[k].size == Large <==> images[k].id <= largeCount)
  {
    var files;
    ghost var filePerm;
    files, filePerm := Shuffle(oldFiles, fileDraws);
    shuffledFiles := files;

    var list: seq<Image> := [];
    for i := 0 to largeCount
      invariant list == Phase1Records(largeCount, files, i)
    {
      Phase1RecordsPush(largeCount, files, i);
      list := list + [Image(i + 1, At(files, i), Large, 1, Some(i), None)];
    }
    // The small records continue the numbering: loop index i stands for the source's largeCount + i.
    for i := largeCount to largeCount + smallCount
      invariant list == Phase1Records(largeCount, files, i)
    {
      Phase1RecordsPush(largeCount, files, i);
      list := list + [Image(i + 1, At(files, i), Small, 1, Some(i), None)];
    }

    ghost var perm;
    images, perm := Shuffle(list, imageDraws);
    ShuffledPhase1(images, perm, largeCount, smallCount, files);
    Phase1SetSizes(images, largeCount, smallCount, files);
  }

  /** In a Phase-1 set, the large records are exactly those with ids 1 .. largeCount. */
  lemma Phase1SetSizes(images: seq<Image>, largeCount: nat, smallCount: nat, files: seq<string>)
    requires IsPhase1Set(images, largeCount, smallCount, files)
    ensures forall k :: 0 <= k < |images| ==> (images[k].size == Large <==> images[k].id <= largeCount)
  {
  }

  /** The shuffled Phase-1 list keeps the records of the unshuffled one, with ids 1 .. n each once. */
  lemma ShuffledPhase1(images: seq<Image>, perm: seq<nat>, largeCount: nat, smallCount: nat, files: seq<string>)
    requires IsPermutation(perm, largeCount + smallCount)
    requires Arranged(images, Phase1Records(largeCount, files, largeCount + smallCount), perm)
    requires multiset(images) == multiset(Phase1Records(largeCount, files, largeCount + smallCount))
    ensures IsPhase1Set(images, largeCount, smallCount, files)
  {
    var n := largeCount + smallCount;
    ShuffledPhase1At(images, perm, largeCount, files, n);
    forall j, k | 0 <= j < k < n ensures images[j].id != images[k].id {
      assert images[j].id == perm[j] + 1 && images[k].id == perm[k] + 1;
    }
    Phase1IdsCovered(images, largeCount, files, n);
  }

  /** Position k of the shuffled list holds the record with id perm[k] + 1. */
  lemma ShuffledPhase1At(images: seq<Image>, perm: seq<nat>, largeCount: nat, files: seq<string>, n: nat)
    requires IsPermutation(perm, n) && Arranged(images, Phase1Records(largeCount, files, n), perm)
    ensures forall k :: 0 <= k < n ==> images[k] == Phase1Record(largeCount, files, perm[k] + 1)
  {
    forall k | 0 <= k < n ensures images[k] == Phase1Record(largeCount, files, perm[k] + 1) {
      Phase1RecordsAt(largeCount, files, n, perm[k]);
    }
  }

  /** A list with the multiset of the first n pushed records holds every id 1 .. n. */
  lemma Phase1IdsCovered(images: seq<Image>, largeCount: nat, files: seq<string>, n: nat)
    requires multiset(images) == multiset(Phase1Records(largeCount, files, n))
    ensures forall id :: 1 <= id <= n ==> HasId(images, id)
  {
    var reference := Phase1Records(largeCount, files, n);
    forall id | 1 <= id <= n ensures HasId(images, id) {
      Phase1RecordsAt(largeCount, files, n, id - 1);
      assert reference[id - 1] in multiset(images);
      var k :| 0 <= k < |images| && images[k] == reference[id - 1];
    }
  }

  /** When the Phase-1 ids are 1 .. n, the largest is n, so new Phase-2 ids start at n + 1. */
  lemma Phase1MaxId(phase1: seq<Image>, largeCount: nat, smallCount: nat, files: seq<string>)
    requires largeCount + smallCount > 0 && IsPhase1Set(phase1, largeCount, smallCount, files)
    ensures |phase1| > 0 && MaxId(phase1) == largeCount + smallCount
  {
    assert HasId(phase1, largeCount + smallCount);
  }

  // ----- Phase 2 -----------------------------------------------------------

  /** A Phase-1 record as it recurs in Phase 2: spread, then size, phase and isOld overridden. */
  function AsOld(p: Image): (r: Image)
    ensures r.id == p.id && r.filename == p.filename && r.originalIndex == p.originalIndex
    ensures r.size == Medium && r.phase == 2 && r.isOld == Some(true)
  {
    p.(size := Medium, phase := 2, isOld := Some(true))
  }

  /** The copies of the first n Phase-1 records, in push order. */
  function OldRecords(phase1: seq<Image>, n: nat): (r: seq<Image>)
    requires n <= |phase1|
    ensures |r| == n
  {
    if n == 0 then [] else OldRecords(phase1, n - 1) + [AsOld(phase1[n - 1])]
  }

  /** The new Phase-2 record number k: id nextId+k, file k of the shuffled new-image list. */
  function NewRecord(nextId: int, files: seq<string>, k: nat): Image
  {
    Image(nextId + k, At(files, k), Medium, 2, None, Some(false))
  }

  /** The first n new records, in push order. */
  function NewRecords(nextId: int, files: seq<string>, n: nat): (r: seq<Image>)
    ensures |r| == n
  {
    if n == 0 then [] else NewRecords(nextId, files, n - 1) + [NewRecord(nextId, files, n - 1)]
  }

  lemma {:induction false} OldRecordsAt(phase1: seq<Image>, n: nat, k: nat)
    requires k < n <= |phase1|
    ensures OldRecords(phase1, n)[k] == AsOld(phase1[k])
  {
    if k < n - 1 {
      OldRecordsAt(phase1, n - 1, k);
    }
  }

  lemma {:induction false} NewRecordsAt(nextId: int, files: seq<string>, n: nat, k: nat)
    requires k < n
    ensures NewRecords(nextId, files, n)[k] == NewRecord(nextId, files, k)
  {
    if k < n - 1 {
      NewRecordsAt(nextId, files, n - 1, k);
    }
  }

  /** The Phase-2 list before its shuffle: the old copies, then the new records. */
  function Phase2Records(phase1: seq<Image>, oldCount: nat, nextId: int, files: seq<string>, newCount: nat)
    : (r: seq<Image>)
    requires oldCount <= |phase1|
    ensures |r| == oldCount + newCount
  {
    OldRecords(phase1, oldCount) + NewRecords(nextId, files, newCount)
  }

  /** Pushing new record number n extends the list by that record. */
  lemma Phase2RecordsPush(phase1: seq<Image>, oldCount: nat, nextId: int, files: seq<string>, n: nat)
    requires oldCount <= |phase1|
    ensures Phase2Records(phase1, oldCount, nextId, files, n + 1)
         == Phase2Records(phase1, oldCount, nextId, files, n) + [Image(nextId + n, At(files, n), Medium, 2, None, Some(false))]
  {
    var copies := OldRecords(phase1, oldCount);
    assert NewRecords(nextId, files, n + 1) == NewRecords(nextId, files, n) + [NewRecord(nextId, files, n)];
    assert copies + (NewRecords(nextId, files, n) + [NewRecord(nextId, files, n)])
        == (copies + NewRecords(nextId, files, n)) + [NewRecord(nextId, files, n)];
  }

  /** Position k of the unshuffled Phase-2 list, old part first. */
  lemma Phase2RecordsAt(phase1: seq<Image>, oldCount: nat, nextId: int, files: seq<string>, newCount: nat, k: nat)
    requires oldCount <= |phase1| && k < oldCount + newCount
    ensures k < oldCount ==> Phase2Records(phase1, oldCount, nextId, files, newCount)[k] == AsOld(phase1[k])
    ensures k >= oldCount ==>
      Phase2Records(phase1, oldCount, nextId, files, newCount)[k] == NewRecord(nextId, files, k - oldCount)
  {
    if k < oldCount {
      OldRecordsAt(phase1, oldCount, k);
    } else {
      NewRecordsAt(nextId, files, newCount, k - oldCount);
    }
  }

  /** Ids of old records come from Phase 1; new ids lie above them all. */
  lemma Phase2RecordsDistinct(phase1: seq<Image>, oldCount: nat, nextId: int, files: seq<string>, newCount: nat)
    requires oldCount <= |phase1| && DistinctIds(phase1)
    requires forall k :: 0 <= k < |phase1| ==> phase1[k].id < nextId
    ensures DistinctIds(Phase2Records(phase1, oldCount, nextId, files, newCount))
  {
    var r := Phase2Records(phase1, oldCount, nextId, files, newCount);
    forall j, k | 0 <= j < k < |r| ensures r[j].id != r[k].id {
      Phase2RecordsAt(phase1, oldCount, nextId, files, newCount, j);
      Phase2RecordsAt(phase1, oldCount, nextId, files, newCount, k);
      if k < oldCount {
        assert phase1[j].id != phase1[k].id;
      }
    }
  }

  /** What every Phase-2 list built from this Phase-1 list satisfies. */
  ghost predicate IsPhase2Set(images: seq<Image>, phase1: seq<Image>, oldCount: nat, newCount: nat,
                              files: seq<string>)
  {
    && oldCount <= |phase1|
    && |images| == oldCount + newCount
    && (|phase1| > 0 ==>
          multiset(images) == multiset(Phase2Records(phase1, oldCount, MaxId(phase1) + 1, files, newCount)))
    && (DistinctIds(phase1) ==> DistinctIds(images))
    && (forall k :: 0 <= k < |images| ==> images[k].isOld.Some?)
    && (forall k :: 0 <= k < |images| ==> (images[k].isOld == Some(true) <==> HasId(phase1, images[k].id)))
  }

  /**
   * The Phase-2 half of generateImageArrays: copies of the first oldCount
   * Phase-1 records, then newCount new records whose ids continue after the
   * largest Phase-1 id, shuffled together.
   */
  method BuildPhase2Images(phase1: seq<Image>, oldCount: nat, newCount: nat, newFiles: seq<string>,
                           fileDraws: seq<real>, imageDraws: seq<real>)
    returns (images: seq<Image>, ghost shuffledFiles: seq<string>)
    requires oldCount <= |phase1|
    requires |phase1| > 0 || newCount == 0
    requires |fileDraws| == |newFiles| && InUnitInterval(fileDraws)
    requires |imageDraws| == oldCount + newCount && InUnitInterval(imageDraws)
    ensures multiset(shuffledFiles) == multiset(newFiles)
    ensures IsPhase2Set(images, phase1, oldCount, newCount, shuffledFiles)
    ensures |images| == oldCount + newCount
    ensures DistinctIds(phase1) ==> DistinctIds(images)
    ensures forall k :: 0 <= k < |images| ==> (images[k].isOld == Some(true) <==> HasId(phase1, images[k].id))
  {
    var list: seq<Image> := [];
    for i := 0 to oldCount
      invariant list == OldRecords(phase1, i)
    {
      assert AsOld(phase1[i]) == phase1[i].(size := Medium, phase := 2, isOld := Some(true));
      list := list + [phase1[i].(size := Medium, phase := 2, isOld := Some(true))];
    }

    var files;
    ghost var filePerm;
    files, filePerm := Shuffle(newFiles, fileDraws);
    shuffledFiles := files;

    // Math.max over no ids is -Infinity in the source; it is only read when newCount > 0,
    // which the precondition ties to a non-empty Phase-1 list.
    var nextId := if |phase1| > 0 then MaxId(phase1) + 1 else 0;
    assert list == Phase2Records(phase1, oldCount, nextId, files, 0);
    for i := 0 to newCount
      invariant list == Phase2Records(phase1, oldCount, nextId, files, i)
    {
      Phase2RecordsPush(phase1, oldCount, nextId, files, i);
      list := list + [Image(nextId + i, At(files, i), Medium, 2, None, Some(false))];
    }

    ghost var perm;
    images, perm := Shuffle(list, imageDraws);
    ShuffledPhase2(images, perm, phase1, oldCount, nextId, files, newCount);
  }

  /** The shuffled Phase-2 list: distinct ids, and a record is old exactly when its id is a Phase-1 id. */
  lemma ShuffledPhase2(images: seq<Image>, perm: seq<nat>, phase1: seq<Image>, oldCount: nat, nextId: int,
                       files: seq<string>, newCount: nat)
    requires oldCount <= |phase1| && (|phase1| > 0 || newCount == 0)
    requires |phase1| > 0 ==> nextId == MaxId(phase1) + 1
    requires IsPermutation(perm, oldCount + newCount)
    requires Arranged(images, Phase2Records(phase1, oldCount, nextId, files, newCount), perm)
    requires multiset(images) == multiset(Phase2Records(phase1, oldCount, nextId, files, newCount))
    ensures IsPhase2Set(images, phase1, oldCount, newCount, files)
  {
    ShuffledPhase2Distinct(images, perm, phase1, oldCount, nextId, files, newCount);
    ShuffledPhase2Classified(images, perm, phase1, oldCount, nextId, files, newCount);
    ShuffledPhase2Records(images, phase1, oldCount, nextId, files, newCount);
  }

  lemma ShuffledPhase2Records(images: seq<Image>, phase1: seq<Image>, oldCount: nat, nextId: int,
                              files: seq<string>, newCount: nat)
    requires oldCount <= |phase1| && (|phase1| > 0 ==> nextId == MaxId(phase1) + 1)
    requires multiset(images) == multiset(Phase2Records(phase1, oldCount, nextId, files, newCount))
    ensures |phase1| > 0 ==>
              multiset(images) == multiset(Phase2Records(phase1, oldCount, MaxId(phase1) + 1, files, newCount))
  {
  }

  lemma ShuffledPhase2Distinct(images: seq<Image>, perm: seq<nat>, phase1: seq<Image>, oldCount: nat,
                               nextId: int, files: seq<string>, newCount: nat)
    requires oldCount <= |phase1| && (|phase1| > 0 ==> nextId == MaxId(phase1) + 1)
    requires IsPermutation(perm, oldCount + newCount)
    requires Arranged(images, Phase2Records(phase1, oldCount, nextId, files, newCount), perm)
    ensures DistinctIds(phase1) ==> DistinctIds(images)
  {
    if DistinctIds(phase1) {
      Phase2RecordsDistinct(phase1, oldCount, nextId, files, newCount);
      PermutedDistinct(images, Phase2Records(phase1, oldCount, nextId, files, newCount), perm);
    }
  }

  lemma ShuffledPhase2Classified(images: seq<Image>, perm: seq<nat>, phase1: seq<Image>, oldCount: nat,
                                 nextId: int, files: seq<string>, newCount: nat)
    requires oldCount <= |phase1| && (|phase1| > 0 || newCount == 0)
    requires |phase1| > 0 ==> nextId == MaxId(phase1) + 1
    requires IsPermutation(perm, oldCount + newCount)
    requires Arranged(images, Phase2Records(phase1, oldCount, nextId, files, newCount), perm)
    ensures forall k :: 0 <= k < |images| ==> images[k].isOld.Some?
    ensures forall k :: 0 <= k < |images| ==> (images[k].isOld == Some(true) <==> HasId(phase1, images[k].id))
  {
    forall k | 0 <= k < |images|
      ensures images[k].isOld.Some?
      ensures images[k].isOld == Some(true) <==> HasId(phase1, images[k].id)
    {
      Phase2RecordsAt(phase1, oldCount, nextId, files, newCount, perm[k]);
      Classified(images[k], phase1, oldCount, nextId, files, perm[k]);
    }
  }

  /** A record of the unshuffled Phase-2 list is old exactly when its id is a Phase-1 id. */
  lemma Classified(r: Image, phase1: seq<Image>, oldCount: nat, nextId: int, files: seq<string>, m: nat)
    requires oldCount <= |phase1| && (|phase1| > 0 ==> nextId == MaxId(phase1) + 1)
    requires m < oldCount ==> r == AsOld(phase1[m])
    requires m >= oldCount ==> |phase1| > 0 && r == NewRecord(nextId, files, m - oldCount)
    ensures r.isOld.Some?
    ensures r.isOld == Some(true) <==> HasId(phase1, r.id)
  {
    if m < oldCount {
      assert phase1[m].id == r.id;
    } else {
      forall j | 0 <= j < |phase1| ensures phase1[j].id != r.id {
      }
    }
  }
}
