/**
 * The timeline of one phase (TrialManager.js, the loops of startPhase1 and
 * startPhase2): walk the images in order and, after the i-th image (1-based),
 * insert an attention check when i is one of the configured positions. The
 * attention checks carry a phase-local index 0, 1, 2, ... that the trial
 * driver maps to a question of the shared bank.
 */
module Timeline {
  import opened Images

  datatype Step = ImageStep(image: Image) | AttentionStep(attentionIndex: nat)

  /** How many of 1 .. n the positions list includes (`positions.includes(i)`). */
  function Hits(positions: seq<int>, n: nat): (r: nat)
    ensures r <= n
  {
    if n == 0 then 0 else Hits(positions, n - 1) + (if n in positions then 1 else 0)
  }

  /** Where the step of image i (1-based) lands: after the i-1 earlier images and their checks. */
  function Slot(positions: seq<int>, i: nat): nat
    requires i >= 1
  {
    i - 1 + Hits(positions, i - 1)
  }

  /** The images of the image steps, in timeline order. */
  function ImagesOf(t: seq<Step>): (r: seq<Image>)
    ensures |r| <= |t|
  {
    if t == [] then []
    else ImagesOf(t[..|t| - 1]) + (if t[|t| - 1].ImageStep? then [t[|t| - 1].image] else [])
  }

  /** The local indices of the attention steps, in timeline order. */
  function AttentionIndices(t: seq<Step>): (r: seq<nat>)
    ensures |r| <= |t|
  {
    if t == [] then []
    else AttentionIndices(t[..|t| - 1]) + (if t[|t| - 1].AttentionStep? then [t[|t| - 1].attentionIndex] else [])
  }

  /** 0, 1, ..., n - 1. */
  function Upto(n: nat): (r: seq<nat>)
    ensures |r| == n
  {
    if n == 0 then [] else Upto(n - 1) + [n - 1]
  }

  /**
   * The first n images of a phase with their checks: image i (1-based) is
   * followed by a check when i is a configured position, and a check is
   * numbered by how many checks come before it.
   */
  function Steps(images: seq<Image>, positions: seq<int>, n: nat): (r: seq<Step>)
    requires n <= |images|
    ensures |r| == n + Hits(positions, n)
  {
    if n == 0 then []
    else Steps(images, positions, n - 1) + [ImageStep(images[n - 1])]
         + (if n in positions then [AttentionStep(Hits(positions, n - 1))] else [])
  }

  /**
   * Image i sits at Slot(i) and is followed by a check exactly when i is a
   * position; that check carries the number of positions up to i, minus one.
   */
  lemma {:induction false} StepsAt(images: seq<Image>, positions: seq<int>, n: nat, i: nat)
    requires 1 <= i <= n <= |images|
    ensures Slot(positions, i) < |Steps(images, positions, n)|
    ensures Steps(images, positions, n)[Slot(positions, i)] == ImageStep(images[i - 1])
    ensures i in positions <==>
              Slot(positions, i) + 1 < |Steps(images, positions, n)|
              && Steps(images, positions, n)[Slot(positions, i) + 1].AttentionStep?
    ensures i in positions ==>
              Steps(images, positions, n)[Slot(positions, i) + 1] == AttentionStep(Hits(positions, i) - 1)
  {
    var prev := Steps(images, positions, n - 1);
    var t := Steps(images, positions, n);
    assert t[|prev|] == ImageStep(images[n - 1]);
    assert forall k :: 0 <= k < |prev| ==> t[k] == prev[k];
    if i < n {
      StepsAt(images, positions, n - 1, i);
      if i == n - 1 && i !in positions {
        assert Slot(positions, i) + 1 == |prev|;
      }
    }
  }

  /** Appending a step appends its image, if it has one. */
  lemma ImagesOfPush(t: seq<Step>, step: Step)
    ensures ImagesOf(t + [step]) == ImagesOf(t) + (if step.ImageStep? then [step.image] else [])
  {
    assert (t + [step])[..|t|] == t;
  }

  /** Appending a step appends its attention index, if it has one. */
  lemma AttentionIndicesPush(t: seq<Step>, step: Step)
    ensures AttentionIndices(t + [step]) == AttentionIndices(t) + (if step.AttentionStep? then [step.attentionIndex] else [])
  {
    assert (t + [step])[..|t|] == t;
  }

  /** The image steps of the first n images' timeline hold exactly those images, in order. */
  lemma {:induction false} StepsImages(images: seq<Image>, positions: seq<int>, n: nat)
    requires n <= |images|
    ensures ImagesOf(Steps(images, positions, n)) == images[..n]
  {
    if n > 0 {
      var prev := Steps(images, positions, n - 1);
      var withImage := prev + [ImageStep(images[n - 1])];
      StepsImages(images, positions, n - 1);
      ImagesOfPush(prev, ImageStep(images[n - 1]));
      assert images[..n] == images[..n - 1] + [images[n - 1]];
      if n in positions {
        var check := AttentionStep(Hits(positions, n - 1));
        ImagesOfPush(withImage, check);
        assert Steps(images, positions, n) == withImage + [check];
      } else {
        assert Steps(images, positions, n) == withImage;
      }
    }
  }

  /** The attention steps of the first n images' timeline are numbered 0, 1, 2, ... in order. */
  lemma {:induction false} StepsAttention(images: seq<Image>, positions: seq<int>, n: nat)
    requires n <= |images|
    ensures AttentionIndices(Steps(images, positions, n)) == Upto(Hits(positions, n))
  {
    if n > 0 {
      var prev := Steps(images, positions, n - 1);
      var withImage := prev + [ImageStep(images[n - 1])];
      StepsAttention(images, positions, n - 1);
      AttentionIndicesPush(prev, ImageStep(images[n - 1]));
      if n in positions {
        var check := AttentionStep(Hits(positions, n - 1));
        AttentionIndicesPush(withImage, check);
        assert Steps(images, positions, n) == withImage + [check];
      } else {
        assert Steps(images, positions, n) == withImage;
      }
    }
  }

  /** Every image step holds one of the phase's images. */
  lemma {:induction false} StepImageIn(images: seq<Image>, positions: seq<int>, n: nat, k: nat)
    requires n <= |images| && k < |Steps(images, positions, n)| && Steps(images, positions, n)[k].ImageStep?
    ensures exists j :: 0 <= j < n && images[j] == Steps(images, positions, n)[k].image
  {
    var prev := Steps(images, positions, n - 1);
    var t := Steps(images, positions, n);
    if k < |prev| {
      assert t[k] == prev[k];
      StepImageIn(images, positions, n - 1, k);
    } else {
      assert t[k] == ImageStep(images[n - 1]);
    }
  }

  /**
   * The whole timeline of a phase: its length is the number of images plus
   * the number of positions in 1 .. N; image i sits at Slot(i), followed by
   * an attention step exactly when i is a position; the image steps hold the
   * images in order and the attention steps are numbered 0, 1, 2, ... in
   * order.
   */
  lemma TimelineShape(images: seq<Image>, positions: seq<int>)
    ensures var t := Steps(images, positions, |images|);
      && |t| == |images| + Hits(positions, |images|)
      && (forall i :: 1 <= i <= |images| ==>
            Slot(positions, i) < |t| && t[Slot(positions, i)] == ImageStep(images[i - 1]))
      && (forall i :: 1 <= i <= |images| ==>
            (i in positions <==> Slot(positions, i) + 1 < |t| && t[Slot(positions, i) + 1].AttentionStep?))
      && (forall i :: 1 <= i <= |images| && i in positions ==>
            Slot(positions, i) + 1 < |t| && t[Slot(positions, i) + 1] == AttentionStep(Hits(positions, i) - 1))
      && ImagesOf(t) == images
      && AttentionIndices(t) == Upto(Hits(positions, |images|))
  {
    var t := Steps(images, positions, |images|);
    forall i | 1 <= i <= |images|
      ensures Slot(positions, i) < |t| && t[Slot(positions, i)] == ImageStep(images[i - 1])
      ensures i in positions <==> Slot(positions, i) + 1 < |t| && t[Slot(positions, i) + 1].AttentionStep?
      ensures i in positions ==> t[Slot(positions, i) + 1] == AttentionStep(Hits(positions, i) - 1)
    {
      StepsAt(images, positions, |images|, i);
    }
    StepsImages(images, positions, |images|);
    StepsAttention(images, positions, |images|);
    assert images[..|images|] == images;
  }

  /** The timeline loop of startPhase1 and startPhase2, proved against Steps. */
  method BuildTimeline(images: seq<Image>, positions: seq<int>) returns (timeline: seq<Step>)
    ensures timeline == Steps(images, positions, |images|)
  {
    timeline := [];
    var attentionCheckCounter := 0;
    var imageIdx := 0;
    for i := 1 to |images| + 1
      invariant imageIdx == i - 1
      invariant attentionCheckCounter == Hits(positions, i - 1)
      invariant timeline == Steps(images, positions, i - 1)
    {
      timeline := timeline + [ImageStep(images[imageIdx])];
      imageIdx := imageIdx + 1;
      if i in positions {
        timeline := timeline + [AttentionStep(attentionCheckCounter)];
        attentionCheckCounter := attentionCheckCounter + 1;
      }
    }
  }

  // ----- How many checks a phase gets ------------------------------------

  /** The configured positions that fall within 1 .. n. */
  function PositionsUpTo(positions: seq<int>, n: nat): set<int>
  {
    set p | p in positions && 1 <= p <= n
  }

  /** Hits counts the distinct configured positions within 1 .. n. */
  lemma {:induction false} HitsCountsPositions(positions: seq<int>, n: nat)
    ensures Hits(positions, n) == |PositionsUpTo(positions, n)|
  {
    if n > 0 {
      HitsCountsPositions(positions, n - 1);
      var below := PositionsUpTo(positions, n - 1);
      if n in positions {
        assert PositionsUpTo(positions, n) == below + {n};
      } else {
        assert PositionsUpTo(positions, n) == below;
      }
    } else {
      assert PositionsUpTo(positions, 0) == {};
    }
  }

  predicate Distinct(s: seq<int>)
  {
    forall j, k :: 0 <= j < k < |s| ==> s[j] != s[k]
  }

  lemma {:induction false} DistinctCardinality(s: seq<int>)
    requires Distinct(s)
    ensures |set x | x in s| == |s|
  {
    if s != [] {
      var init := s[..|s| - 1];
      DistinctCardinality(init);
      assert (set x | x in s) == (set x | x in init) + {s[|s| - 1]};
      assert s[|s| - 1] !in init;
    }
  }

  /**
   * With distinct positions, each within 1 .. N, the timeline holds exactly
   * one attention check per position: its length is N + |positions|.
   */
  lemma CheckCountIsPositionCount(positions: seq<int>, n: nat)
    requires Distinct(positions)
    requires forall k :: 0 <= k < |positions| ==> 1 <= positions[k] <= n
    ensures Hits(positions, n) == |positions|
  {
    HitsCountsPositions(positions, n);
    assert PositionsUpTo(positions, n) == set x | x in positions;
    DistinctCardinality(positions);
  }

  // ----- Which question an attention step asks ---------------------------

  /** Phase 1 asks question k for its k-th check; Phase 2 continues at question k + 2. */
  function QuestionIndex(phase: nat, attentionIndex: nat): nat
  {
    if phase == 1 then attentionIndex else attentionIndex + 2
  }

  lemma {:induction false} AttentionIndexListed(t: seq<Step>, k: nat)
    requires k < |t| && t[k].AttentionStep?
    ensures t[k].attentionIndex in AttentionIndices(t)
  {
    if k < |t| - 1 {
      AttentionIndexListed(t[..|t| - 1], k);
    }
  }

  /**
   * Every check of a timeline numbered 0 .. checks-1 asks a question in
   * QuestionIndex(phase, 0) .. QuestionIndex(phase, checks - 1).
   */
  lemma ChecksAskPhaseQuestions(t: seq<Step>, checks: nat, phase: nat)
    requires AttentionIndices(t) == Upto(checks)
    ensures forall k :: 0 <= k < |t| && t[k].AttentionStep? ==>
              QuestionIndex(phase, 0) <= QuestionIndex(phase, t[k].attentionIndex) < QuestionIndex(phase, checks)
  {
    UptoBelow(checks);
    forall k | 0 <= k < |t| && t[k].AttentionStep? ensures t[k].attentionIndex < checks {
      AttentionIndexListed(t, k);
    }
  }

  /**
   * With at most two checks in Phase 1, no Phase-1 check asks the question of
   * any Phase-2 check: Phase 1 asks among questions 0 and 1, Phase 2 from 2 on.
   */
  lemma PhasesAskDistinctQuestions(t1: seq<Step>, checks1: nat, t2: seq<Step>, checks2: nat)
    requires AttentionIndices(t1) == Upto(checks1) && checks1 <= 2
    requires AttentionIndices(t2) == Upto(checks2)
    ensures forall j, k :: 0 <= j < |t1| && t1[j].AttentionStep? && 0 <= k < |t2| && t2[k].AttentionStep? ==>
              QuestionIndex(1, t1[j].attentionIndex) < 2 <= QuestionIndex(2, t2[k].attentionIndex)
  {
    ChecksAskPhaseQuestions(t1, checks1, 1);
    ChecksAskPhaseQuestions(t2, checks2, 2);
  }

  lemma {:induction false} UptoBelow(n: nat)
    ensures forall x :: x in Upto(n) ==> x < n
  {
    if n > 0 {
      UptoBelow(n - 1);
    }
  }
}
