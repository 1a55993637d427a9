/**
 * The experiment object (Experiment.js, class ImageValuationExperiment,
 * with the trial methods TrialManager.js adds to its prototype): the
 * image lists, the two timelines with their cursors, the Phase-2 answer
 * state and the CSV log, driven by the participant's events.
 *
 * What document.body shows is kept in the `screen` field: each event
 * handler belongs to the screen that offers its control (the image timer
 * to a shown Phase-1 image, the Continue button of an attention check to
 * that check). The wall clock, the random source and the DOM inputs are
 * parameters of the handlers.
 */
module Experiment {
  import opened Wrappers
  import opened Images
  import opened Timeline
  import opened Records

  /** The part of config.json this core reads. */
  datatype Config = Config(
    largeCount: nat, smallCount: nat, oldImagesCount: nat, newImagesCount: nat,
    phase1Positions: seq<int>, phase2Positions: seq<int>)

  /** What document.body shows. */
  datatype Screen =
    | Welcome                                        // the pages before Phase 1, not part of this model
    | ImageShown(image: Image)                       // a Phase-1 image, its display timer pending
    | AttentionForm(phase: nat, attentionIndex: nat) // an attention check of phase 1 or 2
    | Phase2Question(image: Image)                   // a Phase-2 image with its three questions
    | Phase2Instructions
    | FinalQuestions

  /**
   * The answer state of the Phase-2 image on screen: currentMemoryResponse,
   * currentPaymentResponse (cents), currentConfidence, and whether the
   * confidence and payment sliders have been moved.
   */
  datatype Answer = Answer(
    memory: Option<string>,
    payment: Option<int>,
    confidence: Option<int>,
    sliderInteracted: bool,
    paymentInteracted: bool)

  /** The fields of the object that its methods update, as one value. */
  datatype State = State(
    currentPhase: nat,
    phase1Images: seq<Image>,
    phase2Images: seq<Image>,
    csvData: seq<string>,
    subjectId: Option<string>,
    answer: Answer,
    phase1ImageSizes: map<int, Size>,
    phase1Timeline: seq<Step>,
    phase1TimelineIndex: nat,
    phase2Timeline: seq<Step>,
    phase2TimelineIndex: nat,
    screen: Screen)

  /** The state the constructor leaves. */
  const Initial: State :=
    State(1, [], [], [], None, NoAnswer, map[], [], 0, [], 0, Welcome)

  /** Nothing answered, neither slider moved. */
  const NoAnswer: Answer := Answer(None, None, None, false, false)

  /** A timeline that is either not built yet or built from these images and positions. */
  predicate TimelineOf(t: seq<Step>, images: seq<Image>, positions: seq<int>)
  {
    t == [] || t == Steps(images, positions, |images|)
  }

  /**
   * The invariant of the object between events:
   *  - each timeline is the one built from its phase's images;
   *  - the cursors stay within their timelines;
   *  - Phase-1 ids are distinct, and a Phase-2 record is old exactly when
   *    its id is a Phase-1 id;
   *  - every stored Phase-1 size is the size of the Phase-1 record with
   *    that id;
   *  - every Phase-1 image the cursor has passed has its size stored;
   *  - in Phase 2, the Phase-1 timeline has been walked to its end.
   */
  predicate Coherent(s: State, config: Config)
  {
    CoherentData(s.currentPhase, s.phase1Images, s.phase2Images, s.phase1ImageSizes, s.phase1Timeline, s.phase1TimelineIndex,
                 s.phase2Timeline, s.phase2TimelineIndex, config)
  }

  predicate CoherentData(currentPhase: nat, phase1Images: seq<Image>, phase2Images: seq<Image>, sizes: map<int, Size>,
                         phase1Timeline: seq<Step>, phase1TimelineIndex: nat,
                         phase2Timeline: seq<Step>, phase2TimelineIndex: nat, config: Config)
  {
    && TimelineOf(phase1Timeline, phase1Images, config.phase1Positions)
    && TimelineOf(phase2Timeline, phase2Images, config.phase2Positions)
    && phase1TimelineIndex <= |phase1Timeline|
    && phase2TimelineIndex <= |phase2Timeline|
    && DistinctIds(phase1Images)
    && (forall k :: 0 <= k < |phase2Images| ==>
          (phase2Images[k].isOld == Some(true) <==> HasId(phase1Images, phase2Images[k].id)))
    && (forall id :: id in sizes ==>
          exists k :: 0 <= k < |phase1Images| && phase1Images[k].id == id && phase1Images[k].size == sizes[id])
    && (forall k :: 0 <= k < phase1TimelineIndex && phase1Timeline[k].ImageStep? ==>
          phase1Timeline[k].image.id in sizes)
    && (currentPhase == 2 ==> Phase1Finished(phase1Images, phase1Timeline, phase1TimelineIndex))
  }

  /** The Phase-1 timeline has been built (it is empty only without images) and walked to its end. */
  predicate Phase1Finished(images: seq<Image>, t: seq<Step>, index: nat)
  {
    index == |t| && (|images| == 0 || |t| > 0)
  }

  /**
   * The screen shows the step under its phase's cursor; a Phase-2 question
   * screen holds a payment in 0 .. 400 cents and a confidence in 0 .. 100;
   * the Phase-2 instructions follow the end of the Phase-1 timeline.
   */
  predicate Shows(s: State)
  {
    match s.screen
    case ImageShown(image) =>
      s.currentPhase == 1 && s.phase1TimelineIndex < |s.phase1Timeline|
      && s.phase1Timeline[s.phase1TimelineIndex] == ImageStep(image)
    case AttentionForm(phase, a) =>
      if phase == 1 then
        s.currentPhase == 1 && s.phase1TimelineIndex < |s.phase1Timeline|
        && s.phase1Timeline[s.phase1TimelineIndex] == AttentionStep(a)
      else
        phase == 2 && s.currentPhase == 2 && s.phase2TimelineIndex < |s.phase2Timeline|
        && s.phase2Timeline[s.phase2TimelineIndex] == AttentionStep(a)
    case Phase2Question(image) =>
      s.currentPhase == 2 && s.phase2TimelineIndex < |s.phase2Timeline|
      && s.phase2Timeline[s.phase2TimelineIndex] == ImageStep(image)
      && s.answer.payment.Some? && 0 <= s.answer.payment.value <= 400
      && s.answer.confidence.Some? && 0 <= s.answer.confidence.value <= 100
    case Phase2Instructions =>
      s.currentPhase == 1 && Phase1Finished(s.phase1Images, s.phase1Timeline, s.phase1TimelineIndex)
    case _ => true
  }

  /** showNextPhase1Step: the screen for the step under the Phase-1 cursor, or the Phase-2 instructions past the end. */
  function EnterPhase1Step(s: State): State
  {
    if s.phase1TimelineIndex >= |s.phase1Timeline| then s.(screen := Phase2Instructions)
    else match s.phase1Timeline[s.phase1TimelineIndex]
      case ImageStep(image) => s.(screen := ImageShown(image))
      case AttentionStep(a) => s.(screen := AttentionForm(1, a))
  }

  /**
   * generateRandomSliderValues: Math.floor(u * 401) cents and
   * Math.floor(w * 101) confidence for random u, w in [0, 1).
   */
  function RandomSliderValues(u: real, w: real): (r: (nat, nat))
    requires 0.0 <= u < 1.0 && 0.0 <= w < 1.0
    ensures r.0 <= 400 && r.1 <= 100
  {
    (RandomIndex(u, 401), RandomIndex(w, 101))
  }

  /**
   * showNextPhase2Step: past the end, the final questions; on an image
   * step, the question screen with the answers cleared, both interaction
   * flags down and the sliders seeded at random; on an attention step, its
   * form.
   */
  function EnterPhase2Step(s: State, u: real, w: real): State
    requires 0.0 <= u < 1.0 && 0.0 <= w < 1.0
  {
    if s.phase2TimelineIndex >= |s.phase2Timeline| then s.(screen := FinalQuestions)
    else match s.phase2Timeline[s.phase2TimelineIndex]
      case ImageStep(image) =>
        var (payment, confidence) := RandomSliderValues(u, w);
        s.(screen := Phase2Question(image), answer := Answer(None, Some(payment), Some(confidence), false, false))
      case AttentionStep(a) => s.(screen := AttentionForm(2, a))
  }

  /** submitPhase2Response's guard: a memory answer, the question screen (the payment slider exists) and both sliders moved. */
  predicate ResponseComplete(s: State, memory: Option<string>)
  {
    memory.Some? && s.screen.Phase2Question? && s.answer.paymentInteracted && s.answer.sliderInteracted
  }

  /** A move of one of the two sliders on the question screen, with the value it reports. */
  datatype SliderMove = PaymentMove(cents: int) | ConfidenceMove(level: int)

  /** updatePayment and updateConfidence: store the value and raise only that slider's flag. */
  function Moved(s: State, move: SliderMove): State
  {
    match move
    case PaymentMove(cents) => s.(answer := s.answer.(payment := Some(cents), paymentInteracted := true))
    case ConfidenceMove(level) => s.(answer := s.answer.(confidence := Some(level), sliderInteracted := true))
  }

  /** The state after the moves, one by one in order. */
  function AfterMoves(s: State, moves: seq<SliderMove>): State
    decreases |moves|
  {
    if moves == [] then s else AfterMoves(Moved(s, moves[0]), moves[1..])
  }

  predicate MovesPayment(moves: seq<SliderMove>)
  {
    exists i :: 0 <= i < |moves| && moves[i].PaymentMove?
  }

  predicate MovesConfidence(moves: seq<SliderMove>)
  {
    exists i :: 0 <= i < |moves| && moves[i].ConfidenceMove?
  }

  /** Log a row and move the Phase-1 cursor one step on. */
  function LoggedPhase1(s: State, row: string): State
  {
    s.(csvData := s.csvData + [row], phase1TimelineIndex := s.phase1TimelineIndex + 1)
  }

  /** Log a row and move the Phase-2 cursor one step on. */
  function LoggedPhase2(s: State, row: string): State
  {
    s.(csvData := s.csvData + [row], phase2TimelineIndex := s.phase2TimelineIndex + 1)
  }

  /** The phase1_image row of a shown image. */
  function ImageRow(s: State, image: Image, m: Moment, session: string): string
  {
    Row(Phase1Entry(Participant(s.subjectId), image, m, session))
  }

  /** The attention_check row for the answer `response` to question `question`. */
  function CheckRow(s: State, question: Question, response: string, m: Moment, session: string): string
  {
    Row(AttentionEntry(Participant(s.subjectId), s.currentPhase, question, response, m, session))
  }

  /**
   * The phase2_response row of the image under the Phase-2 cursor, with the
   * memory answer given and the two slider values held.
   */
  function ResponseRow(s: State, memory: string, m: Moment, session: string): string
    requires Shows(s) && s.screen.Phase2Question?
  {
    Row(ResponseEntry(s, memory, m, session))
  }

  function ResponseEntry(s: State, memory: string, m: Moment, session: string): Columns
    requires Shows(s) && s.screen.Phase2Question?
  {
    Phase2Entry(Participant(s.subjectId), s.phase2Timeline[s.phase2TimelineIndex].image,
                s.phase1Images, s.phase1ImageSizes, memory, s.answer.payment.value as nat,
                s.answer.confidence.value as nat, m, session)
  }

  class ImageValuationExperiment {
    var currentPhase: nat
    var phase1Images: seq<Image>
    var phase2Images: seq<Image>
    var csvData: seq<string>
    var subjectId: Option<string>
    var answer: Answer
    var phase1ImageSizes: map<int, Size>
    var phase1Timeline: seq<Step>
    var phase1TimelineIndex: nat
    var phase2Timeline: seq<Step>
    var phase2TimelineIndex: nat
    var screen: Screen
    const config: Config
    const attentionCheckQuestions: seq<Question>
    const sessionId: string

    function Snapshot(): State
      reads this
    {
      State(currentPhase, phase1Images, phase2Images, csvData, subjectId, answer, phase1ImageSizes,
            phase1Timeline, phase1TimelineIndex, phase2Timeline, phase2TimelineIndex, screen)
    }

    predicate Valid()
      reads this
    {
      Coherent(Snapshot(), config) && Shows(Snapshot())
    }

    /**
     * The initial state: phase 1, no images, no rows, no stored sizes,
     * both interaction flags down. The configuration and questions that
     * init loads, and the generated session id, are given here.
     */
    constructor(config: Config, questions: seq<Question>, sessionId: string)
      ensures Valid()
      ensures Snapshot() == Initial
      ensures this.config == config && attentionCheckQuestions == questions && this.sessionId == sessionId
    {
      currentPhase := 1;
      phase1Images := [];
      phase2Images := [];
      csvData := [];
      subjectId := None;
      answer := NoAnswer;
      phase1ImageSizes := map[];
      phase1Timeline := [];
      phase1TimelineIndex := 0;
      phase2Timeline := [];
      phase2TimelineIndex := 0;
      screen := Welcome;
      this.config := config;
      attentionCheckQuestions := questions;
      this.sessionId := sessionId;
    }

    /**
     * generateImageArrays, before either phase has started: the Phase-1
     * and Phase-2 lists built from the two file lists and the random
     * draws, the new Phase-2 ids continuing after N = largeCount +
     * smallCount; nothing else changes.
     */
    method GenerateImageArrays(oldImageFiles: seq<string>, newImageFiles: seq<string>,
                               oldFileDraws: seq<real>, phase1Draws: seq<real>,
                               newFileDraws: seq<real>, phase2Draws: seq<real>)
      returns (ghost oldFileOrder: seq<string>, ghost newFileOrder: seq<string>)
      requires Valid() && currentPhase == 1 && screen == Welcome
      requires phase1Timeline == [] && phase2Timeline == [] && phase1ImageSizes == map[]
      requires config.oldImagesCount <= config.largeCount + config.smallCount
      requires config.largeCount + config.smallCount > 0 || config.newImagesCount == 0
      requires |oldFileDraws| == |oldImageFiles| && InUnitInterval(oldFileDraws)
      requires |phase1Draws| == config.largeCount + config.smallCount && InUnitInterval(phase1Draws)
      requires |newFileDraws| == |newImageFiles| && InUnitInterval(newFileDraws)
      requires |phase2Draws| == config.oldImagesCount + config.newImagesCount && InUnitInterval(phase2Draws)
      modifies this
      ensures Valid()
      ensures Snapshot() == old(Snapshot()).(phase1Images := phase1Images, phase2Images := phase2Images)
      ensures multiset(oldFileOrder) == multiset(oldImageFiles)
      ensures IsPhase1Set(phase1Images, config.largeCount, config.smallCount, oldFileOrder)
      ensures multiset(newFileOrder) == multiset(newImageFiles)
      ensures IsPhase2Set(phase2Images, phase1Images, config.oldImagesCount, config.newImagesCount, newFileOrder)
      ensures config.largeCount + config.smallCount > 0 ==>
                |phase1Images| > 0 && MaxId(phase1Images) == config.largeCount + config.smallCount
    {
      ghost var before := Snapshot();
      phase1Images, oldFileOrder :=
        BuildPhase1Images(config.largeCount, config.smallCount, oldImageFiles, oldFileDraws, phase1Draws);
      phase2Images, newFileOrder :=
        BuildPhase2Images(phase1Images, config.oldImagesCount, config.newImagesCount, newImageFiles,
                          newFileDraws, phase2Draws);
      assert Snapshot() == before.(phase1Images := phase1Images, phase2Images := phase2Images);
      GeneratedStaysValid(before, config, phase1Images, phase2Images);
      if config.largeCount + config.smallCount > 0 {
        Phase1MaxId(phase1Images, config.largeCount, config.smallCount, oldFileOrder);
      }
    }

    /** startPhase1: build the Phase-1 timeline, put the cursor on its first step and show it. */
    method StartPhase1()
      requires Valid()
      modifies this
      ensures Valid()
      ensures Snapshot() == EnterPhase1Step(old(Snapshot()).(
                currentPhase := 1,
                phase1Timeline := Steps(old(phase1Images), config.phase1Positions, |old(phase1Images)|),
                phase1TimelineIndex := 0))
    {
      currentPhase := 1;
      phase1Timeline := BuildTimeline(phase1Images, config.phase1Positions);
      phase1TimelineIndex := 0;
      ShowNextPhase1Step();
    }

    /** showNextPhase1Step. */
    method ShowNextPhase1Step()
      requires Coherent(Snapshot(), config) && currentPhase == 1
      requires phase1Timeline == Steps(phase1Images, config.phase1Positions, |phase1Images|)
      modifies this
      ensures Valid()
      ensures Snapshot() == EnterPhase1Step(old(Snapshot()))
    {
      EnterPhase1StepShows(Snapshot(), config);
      if phase1TimelineIndex >= |phase1Timeline| {
        screen := Phase2Instructions;
        return;
      }
      var step := phase1Timeline[phase1TimelineIndex];
      if step.ImageStep? {
        screen := ImageShown(step.image);
      } else {
        screen := AttentionForm(1, step.attentionIndex);
      }
    }

    /** recordPhase1ImageData: store the image's size under its id and log its phase1_image row. */
    method RecordPhase1ImageData(image: Image, m: Moment)
      modifies this
      ensures Snapshot() == old(Snapshot()).(
                phase1ImageSizes := old(phase1ImageSizes)[image.id := image.size],
                csvData := old(csvData) + [ImageRow(old(Snapshot()), image, m, sessionId)])
    {
      phase1ImageSizes := phase1ImageSizes[image.id := image.size];
      csvData := csvData + [Row(Phase1Entry(Participant(subjectId), image, m, sessionId))];
    }

    /**
     * The display timer of a Phase-1 image: record the image, advance the
     * cursor by one and show the next step.
     */
    method ImageTimerFired(m: Moment)
      requires Valid() && screen.ImageShown?
      modifies this
      ensures Valid()
      ensures Snapshot() == EnterPhase1Step(LoggedPhase1(
                old(Snapshot()).(phase1ImageSizes := old(phase1ImageSizes)[old(screen).image.id := old(screen).image.size]),
                ImageRow(old(Snapshot()), old(screen).image, m, sessionId)))
    {
      var image := screen.image;
      ghost var before := Snapshot();
      ghost var row := ImageRow(before, image, m, sessionId);
      RecordPhase1ImageData(image, m);
      phase1TimelineIndex := phase1TimelineIndex + 1;
      assert Snapshot() == LoggedPhase1(before.(phase1ImageSizes := before.phase1ImageSizes[image.id := image.size]), row);
      RecordedStaysCoherent(before, config, image, row);
      ShowNextPhase1Step();
    }

    /**
     * The tail of submitPhase1AttentionCheck: push the row onto the log,
     * move the cursor past the check on screen and show the next step.
     */
    method LogAndAdvancePhase1(row: string)
      requires Valid() && screen.AttentionForm? && screen.phase == 1
      modifies this
      ensures Valid()
      ensures Snapshot() == EnterPhase1Step(LoggedPhase1(old(Snapshot()), row))
    {
      ghost var before := Snapshot();
      AdvancePhase1StaysCoherent(before, config, row);
      csvData := csvData + [row];
      phase1TimelineIndex := phase1TimelineIndex + 1;
      assert Snapshot() == LoggedPhase1(before, row);
      ShowNextPhase1Step();
    }

    /**
     * submitPhase1AttentionCheck: without a selected option nothing changes;
     * with one, the attention_check row of question `attentionIndex` is
     * logged, the cursor advances by one and the next step is shown.
     */
    method SubmitPhase1AttentionCheck(attentionIndex: nat, selected: Option<string>, m: Moment)
      requires Valid() && screen == AttentionForm(1, attentionIndex)
      requires QuestionIndex(1, attentionIndex) < |attentionCheckQuestions|
      modifies this
      ensures Valid()
      ensures selected.None? ==> Snapshot() == old(Snapshot())
      ensures selected.Some? ==>
                Snapshot() == EnterPhase1Step(LoggedPhase1(old(Snapshot()),
                  CheckRow(old(Snapshot()), attentionCheckQuestions[QuestionIndex(1, attentionIndex)],
                           selected.value, m, sessionId)))
    {
      if selected.None? {
        return;
      }
      var question := attentionCheckQuestions[attentionIndex];
      var row := CheckRow(Snapshot(), question, selected.value, m, sessionId);
      LogAndAdvancePhase1(row);
    }

    /** startPhase2: build the Phase-2 timeline, put the cursor on its first step and show it. */
    method StartPhase2(u: real, w: real)
      requires Valid() && screen == Phase2Instructions && 0.0 <= u < 1.0 && 0.0 <= w < 1.0
      modifies this
      ensures Valid()
      ensures Snapshot() == EnterPhase2Step(old(Snapshot()).(
                currentPhase := 2,
                phase2Timeline := Steps(old(phase2Images), config.phase2Positions, |old(phase2Images)|),
                phase2TimelineIndex := 0), u, w)
    {
      currentPhase := 2;
      phase2Timeline := BuildTimeline(phase2Images, config.phase2Positions);
      phase2TimelineIndex := 0;
      ShowNextPhase2Step(u, w);
    }

    /** showNextPhase2Step, with the two random numbers of generateRandomSliderValues as u and w. */
    method ShowNextPhase2Step(u: real, w: real)
      requires Coherent(Snapshot(), config) && currentPhase == 2 && 0.0 <= u < 1.0 && 0.0 <= w < 1.0
      modifies this
      ensures Valid()
      ensures Snapshot() == EnterPhase2Step(old(Snapshot()), u, w)
    {
      ghost var before := Snapshot();
      EnterPhase2StepShows(before, config, u, w);
      if phase2TimelineIndex >= |phase2Timeline| {
        screen := FinalQuestions;
        assert Snapshot() == EnterPhase2Step(before, u, w);
        return;
      }
      var step := phase2Timeline[phase2TimelineIndex];
      if step.ImageStep? {
        var (payment, confidence) := RandomSliderValues(u, w);
        answer := Answer(None, Some(payment), Some(confidence), false, false);
        screen := Phase2Question(step.image);
        assert Snapshot() == EnterPhase2Step(before, u, w);
      } else {
        screen := AttentionForm(2, step.attentionIndex);
        assert Snapshot() == EnterPhase2Step(before, u, w);
      }
    }

    /**
     * The common tail of the Phase-2 handlers: push the row onto the log,
     * move the cursor past the step on screen and show the next one.
     */
    method LogAndAdvancePhase2(row: string, u: real, w: real)
      requires Valid() && (screen.Phase2Question? || (screen.AttentionForm? && screen.phase == 2))
      requires 0.0 <= u < 1.0 && 0.0 <= w < 1.0
      modifies this
      ensures Valid()
      ensures Snapshot() == EnterPhase2Step(LoggedPhase2(old(Snapshot()), row), u, w)
    {
      ghost var before := Snapshot();
      AdvancePhase2StaysCoherent(before, config, row);
      csvData := csvData + [row];
      phase2TimelineIndex := phase2TimelineIndex + 1;
      assert Snapshot() == LoggedPhase2(before, row);
      ShowNextPhase2Step(u, w);
    }

    /**
     * submitPhase2AttentionCheck: without a selected option nothing changes;
     * with one, the attention_check row of question `attentionIndex + 2` is
     * logged, the cursor advances by one and the next step is shown.
     */
    method SubmitPhase2AttentionCheck(attentionIndex: nat, selected: Option<string>, m: Moment, u: real, w: real)
      requires Valid() && screen == AttentionForm(2, attentionIndex)
      requires QuestionIndex(2, attentionIndex) < |attentionCheckQuestions|
      requires 0.0 <= u < 1.0 && 0.0 <= w < 1.0
      modifies this
      ensures Valid()
      ensures selected.None? ==> Snapshot() == old(Snapshot())
      ensures selected.Some? ==>
                Snapshot() == EnterPhase2Step(LoggedPhase2(old(Snapshot()),
                  CheckRow(old(Snapshot()), attentionCheckQuestions[QuestionIndex(2, attentionIndex)],
                           selected.value, m, sessionId)), u, w)
    {
      if selected.None? {
        return;
      }
      var question := attentionCheckQuestions[attentionIndex + 2];
      var row := CheckRow(Snapshot(), question, selected.value, m, sessionId);
      LogAndAdvancePhase2(row, u, w);
    }

    /**
     * submitPhase2Response: unless a memory answer is given, the question
     * screen is up and both sliders have been moved, nothing changes;
     * otherwise the phase2_response row of the image under the cursor is
     * logged, the cursor advances by one and the next step is shown.
     */
    method SubmitPhase2Response(memory: Option<string>, m: Moment, u: real, w: real)
      requires Valid() && 0.0 <= u < 1.0 && 0.0 <= w < 1.0
      modifies this
      ensures Valid()
      ensures !ResponseComplete(old(Snapshot()), memory) ==> Snapshot() == old(Snapshot())
      ensures ResponseComplete(old(Snapshot()), memory) ==>
                Snapshot() == EnterPhase2Step(LoggedPhase2(old(Snapshot()),
                  ResponseRow(old(Snapshot()), memory.value, m, sessionId)), u, w)
    {
      if memory.None? {
        return;
      }
      if !screen.Phase2Question? || !answer.paymentInteracted {
        return;
      }
      if !answer.sliderInteracted {
        return;
      }
      var row := ResponseRow(Snapshot(), memory.value, m, sessionId);
      LogAndAdvancePhase2(row, u, w);
    }

    /** updateConfidence: store the slider's value (0 .. 100) and raise only sliderInteracted. */
    method UpdateConfidence(value: int)
      requires Valid() && 0 <= value <= 100
      modifies this
      ensures Valid()
      ensures Snapshot() == Moved(old(Snapshot()), ConfidenceMove(value))
    {
      answer := answer.(confidence := Some(value), sliderInteracted := true);
    }

    /** updatePayment: store the slider's value in cents (0 .. 400) and raise only paymentInteracted. */
    method UpdatePayment(value: int)
      requires Valid() && 0 <= value <= 400
      modifies this
      ensures Valid()
      ensures Snapshot() == Moved(old(Snapshot()), PaymentMove(value))
    {
      answer := answer.(payment := Some(value), paymentInteracted := true);
    }
  }

  /** Recording the image under the Phase-1 cursor and moving past it keeps the state coherent. */
  lemma RecordedStaysCoherent(before: State, config: Config, image: Image, row: string)
    requires Coherent(before, config) && Shows(before) && before.screen == ImageShown(image)
    ensures Coherent(LoggedPhase1(before.(phase1ImageSizes := before.phase1ImageSizes[image.id := image.size]), row), config)
    ensures before.phase1Timeline == Steps(before.phase1Images, config.phase1Positions, |before.phase1Images|)
  {
    StepImageIn(before.phase1Images, config.phase1Positions, |before.phase1Images|, before.phase1TimelineIndex);
  }

  /**
   * Before either timeline is built, replacing the image lists by lists
   * with distinct Phase-1 ids and correctly classified Phase-2 records keeps
   * the object valid.
   */
  lemma GeneratedStaysValid(s: State, config: Config, phase1: seq<Image>, phase2: seq<Image>)
    requires Coherent(s, config) && s.currentPhase == 1 && s.screen == Welcome
    requires s.phase1Timeline == [] && s.phase2Timeline == [] && s.phase1ImageSizes == map[]
    requires DistinctIds(phase1)
    requires forall k :: 0 <= k < |phase2| ==> (phase2[k].isOld == Some(true) <==> HasId(phase1, phase2[k].id))
    ensures Coherent(s.(phase1Images := phase1, phase2Images := phase2), config)
    ensures Shows(s.(phase1Images := phase1, phase2Images := phase2))
  {
  }

  /** Coherence does not depend on the screen or the answer on it. */
  lemma ScreenKeepsCoherent(s: State, t: State, config: Config)
    requires Coherent(s, config) && t.(screen := s.screen, answer := s.answer) == s
    ensures Coherent(t, config)
  {
  }

  /** Showing the step under the Phase-1 cursor keeps the state coherent and shows that step. */
  lemma EnterPhase1StepShows(s: State, config: Config)
    requires Coherent(s, config) && s.currentPhase == 1
    requires s.phase1Timeline == Steps(s.phase1Images, config.phase1Positions, |s.phase1Images|)
    ensures Coherent(EnterPhase1Step(s), config) && Shows(EnterPhase1Step(s))
  {
    ScreenKeepsCoherent(s, EnterPhase1Step(s), config);
  }

  /** Showing the step under the Phase-2 cursor keeps the state coherent and shows that step. */
  lemma EnterPhase2StepShows(s: State, config: Config, u: real, w: real)
    requires Coherent(s, config) && s.currentPhase == 2 && 0.0 <= u < 1.0 && 0.0 <= w < 1.0
    ensures Coherent(EnterPhase2Step(s, u, w), config) && Shows(EnterPhase2Step(s, u, w))
  {
    ScreenKeepsCoherent(s, EnterPhase2Step(s, u, w), config);
  }

  /** Logging a row and moving the Phase-1 cursor past an attention step keeps the state coherent. */
  lemma AdvancePhase1StaysCoherent(s: State, config: Config, row: string)
    requires Coherent(s, config) && Shows(s) && s.screen.AttentionForm? && s.screen.phase == 1
    ensures Coherent(LoggedPhase1(s, row), config)
    ensures s.phase1Timeline == Steps(s.phase1Images, config.phase1Positions, |s.phase1Images|)
  {
  }

  /** Logging a row and moving the Phase-2 cursor past the step it shows keeps the state coherent. */
  lemma AdvancePhase2StaysCoherent(s: State, config: Config, row: string)
    requires Coherent(s, config) && Shows(s)
    requires s.screen.Phase2Question? || (s.screen.AttentionForm? && s.screen.phase == 2)
    ensures Coherent(LoggedPhase2(s, row), config)
  {
  }

  // ----- What the invariant buys ------------------------------------------

  /**
   * Once Phase 2 has begun, every Phase-1 image has its display size
   * stored under its id: the Phase-1 cursor has passed all of its steps.
   */
  lemma Phase2KnowsSizes(s: State, config: Config)
    requires Coherent(s, config) && s.currentPhase == 2
    ensures forall k :: 0 <= k < |s.phase1Images| ==>
              s.phase1Images[k].id in s.phase1ImageSizes
              && s.phase1ImageSizes[s.phase1Images[k].id] == s.phase1Images[k].size
  {
    var p1 := s.phase1Images;
    forall k | 0 <= k < |p1|
      ensures p1[k].id in s.phase1ImageSizes && s.phase1ImageSizes[p1[k].id] == p1[k].size
    {
      StepsAt(p1, config.phase1Positions, |p1|, k + 1);
      var slot := Slot(config.phase1Positions, k + 1);
      assert s.phase1Timeline[slot] == ImageStep(p1[k]);
      var j :| 0 <= j < |p1| && p1[j].id == p1[k].id && p1[j].size == s.phase1ImageSizes[p1[k].id];
      assert j == k by {
        assert !(j < k) && !(k < j);
      }
    }
  }

  /**
   * The phase2_response row of the image on screen: image_type is 'old'
   * exactly when the record is one of the Phase-1 copies (isOld), and an old
   * image's phase1_size is the size it was shown at in Phase 1, never
   * 'unknown_size'; a new image's is 'not_shown_in_phase1'.
   */
  lemma ResponseRowClassifies(s: State, config: Config, memory: string, m: Moment, session: string)
    requires Coherent(s, config) && Shows(s) && s.screen.Phase2Question?
    ensures var c := ResponseEntry(s, memory, m, session);
      var image := s.screen.image;
      && (c.imageType == "old" <==> image.isOld == Some(true))
      && (image.isOld == Some(true) ==>
            c.phase1Size != "unknown_size"
            && exists k :: 0 <= k < |s.phase1Images| && s.phase1Images[k].id == image.id
                           && c.phase1Size == SizeName(s.phase1Images[k].size))
      && (image.isOld != Some(true) ==> c.phase1Size == "not_shown_in_phase1")
  {
    var image := s.screen.image;
    var p2 := s.phase2Images;
    StepImageIn(p2, config.phase2Positions, |p2|, s.phase2TimelineIndex);
    var j :| 0 <= j < |p2| && p2[j] == image;
    assert image.isOld == Some(true) <==> HasId(s.phase1Images, image.id);
    Phase2KnowsSizes(s, config);
  }

  /**
   * Slider moves change only the answer's values and flags: a flag is up
   * afterwards exactly when it was up before or some move was of its slider.
   */
  lemma {:induction false} MovesRaiseFlags(t: State, moves: seq<SliderMove>)
    ensures AfterMoves(t, moves).(answer := t.answer) == t
    ensures AfterMoves(t, moves).answer.memory == t.answer.memory
    ensures AfterMoves(t, moves).answer.paymentInteracted <==> t.answer.paymentInteracted || MovesPayment(moves)
    ensures AfterMoves(t, moves).answer.sliderInteracted <==> t.answer.sliderInteracted || MovesConfidence(moves)
    decreases |moves|
  {
    if moves != [] {
      var rest := moves[1..];
      MovesRaiseFlags(Moved(t, moves[0]), rest);
      assert MovesPayment(moves) <==> moves[0].PaymentMove? || MovesPayment(rest) by {
        if MovesPayment(rest) {
          var i :| 0 <= i < |rest| && rest[i].PaymentMove?;
          assert moves[i + 1] == rest[i];
        }
        if MovesPayment(moves) && !moves[0].PaymentMove? {
          var i :| 0 <= i < |moves| && moves[i].PaymentMove?;
          assert rest[i - 1] == moves[i];
        }
      }
      assert MovesConfidence(moves) <==> moves[0].ConfidenceMove? || MovesConfidence(rest) by {
        if MovesConfidence(rest) {
          var i :| 0 <= i < |rest| && rest[i].ConfidenceMove?;
          assert moves[i + 1] == rest[i];
        }
        if MovesConfidence(moves) && !moves[0].ConfidenceMove? {
          var i :| 0 <= i < |moves| && moves[i].ConfidenceMove?;
          assert rest[i - 1] == moves[i];
        }
      }
    }
  }

  /**
   * From a Phase-2 step just shown, a run of slider moves lets a submission
   * through exactly when the step is an image, a memory answer is given and
   * both sliders are among the moves: moving only one slider, however
   * often, still refuses it.
   */
  lemma SliderMovesUnlockSubmit(s: State, memory: Option<string>, u: real, w: real, moves: seq<SliderMove>)
    requires 0.0 <= u < 1.0 && 0.0 <= w < 1.0
    ensures ResponseComplete(AfterMoves(EnterPhase2Step(s, u, w), moves), memory)
            <==> && memory.Some?
                 && s.phase2TimelineIndex < |s.phase2Timeline| && s.phase2Timeline[s.phase2TimelineIndex].ImageStep?
                 && MovesPayment(moves) && MovesConfidence(moves)
  {
    MovesRaiseFlags(EnterPhase2Step(s, u, w), moves);
  }

  /** A question screen just shown refuses a submission: neither slider has been moved yet. */
  lemma ShownQuestionAwaitsSliders(s: State, memory: Option<string>, u: real, w: real)
    requires 0.0 <= u < 1.0 && 0.0 <= w < 1.0
    ensures !ResponseComplete(EnterPhase2Step(s, u, w), memory)
  {
  }

  /** On the question screen, once both sliders have been moved, a memory answer is accepted. */
  lemma SlidersUnlockSubmit(s: State, memory: Option<string>, payment: int, confidence: int)
    requires s.screen.Phase2Question? && memory.Some?
    ensures ResponseComplete(s.(answer := s.answer.(payment := Some(payment), paymentInteracted := true)
                                              .(confidence := Some(confidence), sliderInteracted := true)), memory)
  {
  }
}
