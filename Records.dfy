/**
 * The response recorder (TrialManager.js, recordPhase1ImageData,
 * submitPhase1AttentionCheck, submitPhase2AttentionCheck and
 * submitPhase2Response): every event becomes one line of the CSV log with
 * the same 25 columns, joined by commas and ended by a line feed. The
 * eight questionnaire columns (snack_preference .. food_allergies_other)
 * are filled by an end-of-session page and are empty in every row here.
 * Only the filename, the memory answer, the question id and the attention
 * answer are escaped.
 */
module Records {
  import opened Wrappers
  import opened Csv
  import opened Decimal
  import opened Images

  /** An attention-check question of the configuration. */
  datatype Question = Question(id: string, prompt: string, instruction: string, options: seq<string>,
                               correctAnswer: string)

  /**
   * The clock readings a row carries, as the strings the source prints:
   * the response time in seconds (toFixed(3)) and the ISO timestamp.
   */
  datatype Moment = Moment(responseTime: string, timestamp: string)

  /** One row of the log, column by column, before escaping. */
  datatype Columns = Columns(
    participantId: string, entryType: string, phase: string, imageId: string, filename: string,
    imageSize: string, phase1Size: string, imageType: string, memoryResponse: string,
    paymentResponse: string, confidence: string, responseTime: string, attentionCheckId: string,
    attentionResponse: string, attentionCorrect: string, snackPreference: string, desireToEat: string,
    hunger: string, fullness: string, satisfaction: string, eatingCapacity: string, foodAllergies: string,
    foodAllergiesOther: string, sessionId: string, timestamp: string)

  /** The 25 values in column order. */
  function Values(c: Columns): (v: seq<string>)
    ensures |v| == 25
  {
    [c.participantId, c.entryType, c.phase, c.imageId, c.filename, c.imageSize, c.phase1Size, c.imageType,
     c.memoryResponse, c.paymentResponse, c.confidence, c.responseTime, c.attentionCheckId,
     c.attentionResponse, c.attentionCorrect, c.snackPreference, c.desireToEat, c.hunger, c.fullness,
     c.satisfaction, c.eatingCapacity, c.foodAllergies, c.foodAllergiesOther, c.sessionId, c.timestamp]
  }

  /** The columns the source passes through escapeCSVField: filename, memory answer, question id, attention answer. */
  predicate Escaped(column: nat)
  {
    column == 4 || column == 8 || column == 12 || column == 13
  }

  /** `this.subjectId || 'unknown'`: an absent or empty id is recorded as 'unknown'. */
  function Participant(subjectId: Option<string>): (r: string)
    ensures subjectId.Some? && subjectId.value != "" ==> r == subjectId.value
    ensures subjectId.None? || subjectId.value == "" ==> r == "unknown"
  {
    if subjectId.Some? && subjectId.value != "" then subjectId.value else "unknown"
  }

  /** The eight questionnaire columns, snack_preference .. food_allergies_other, are all empty. */
  predicate QuestionnaireEmpty(c: Columns)
  {
    && c.snackPreference == "" && c.desireToEat == "" && c.hunger == "" && c.fullness == ""
    && c.satisfaction == "" && c.eatingCapacity == "" && c.foodAllergies == "" && c.foodAllergiesOther == ""
  }

  /** A row of the given kind with every column but the identity and clock columns empty. */
  function Blank(participant: string, entryType: string, phase: string, m: Moment, session: string): Columns
  {
    Columns(participant, entryType, phase, "", "", "", "", "", "", "", "", m.responseTime, "", "", "",
            "", "", "", "", "", "", "", "", session, m.timestamp)
  }

  /**
   * recordPhase1ImageData's row. Every column the source writes unescaped
   * needs no quoting once the identity and clock values need none.
   */
  function Phase1Entry(participant: string, image: Image, m: Moment, session: string): (c: Columns)
    ensures PlainContext(participant, m, session) ==> PlainWhereUnescaped(c)
  {
    assert !NeedsQuotes("") && !NeedsQuotes("phase1_image") && !NeedsQuotes("1");
    Blank(participant, "phase1_image", "1", m, session).(
      imageId := IntToString(image.id), filename := image.filename.GetOr(""), imageSize := SizeName(image.size))
  }

  /**
   * The row of submitPhase1AttentionCheck and submitPhase2AttentionCheck.
   * Every column the source writes unescaped needs no quoting once the
   * identity and clock values need none.
   */
  function AttentionEntry(participant: string, phase: nat, question: Question, response: string,
                          m: Moment, session: string): (c: Columns)
    ensures PlainContext(participant, m, session) ==> PlainWhereUnescaped(c)
  {
    assert !NeedsQuotes("") && !NeedsQuotes("attention_check");
    Blank(participant, "attention_check", NatToString(phase), m, session).(
      attentionCheckId := question.id, attentionResponse := response,
      attentionCorrect := BoolToString(response == question.correctAnswer))
  }

  /**
   * image_type of a Phase-2 row: 'old' exactly when some Phase-1 record has
   * the image's id (`phase1Images.some(p1img => p1img.id === image.id)`).
   */
  function ImageType(phase1: seq<Image>, id: int): (r: string)
    ensures r == "old" <==> HasId(phase1, id)
    ensures r == "new" <==> !HasId(phase1, id)
    ensures !NeedsQuotes(r)
  {
    if HasId(phase1, id) then "old" else "new"
  }

  /**
   * phase1_size of a Phase-2 row: for an old image the size stored for its
   * id while Phase 1 was recorded, 'unknown_size' when none was stored; for
   * a new image 'not_shown_in_phase1'.
   */
  function Phase1SizeOf(phase1: seq<Image>, sizes: map<int, Size>, id: int): (r: string)
    ensures !HasId(phase1, id) <==> r == "not_shown_in_phase1"
    ensures HasId(phase1, id) && id !in sizes <==> r == "unknown_size"
    ensures HasId(phase1, id) && id in sizes ==> r == SizeName(sizes[id])
    ensures !NeedsQuotes(r)
  {
    if HasId(phase1, id) then (if id in sizes then SizeName(sizes[id]) else "unknown_size")
    else "not_shown_in_phase1"
  }

  /**
   * submitPhase2Response's row. Every column the source writes unescaped
   * needs no quoting once the identity and clock values need none.
   */
  function Phase2Entry(participant: string, image: Image, phase1: seq<Image>, sizes: map<int, Size>,
                       memory: string, payment: nat, confidence: nat, m: Moment, session: string): (c: Columns)
    ensures PlainContext(participant, m, session) ==> PlainWhereUnescaped(c)
  {
    assert !NeedsQuotes("") && !NeedsQuotes("phase2_response") && !NeedsQuotes("2");
    Blank(participant, "phase2_response", "2", m, session).(
      imageId := IntToString(image.id), filename := image.filename.GetOr(""), imageSize := SizeName(image.size),
      phase1Size := Phase1SizeOf(phase1, sizes, image.id), imageType := ImageType(phase1, image.id),
      memoryResponse := memory, paymentResponse := FormatCents(payment), confidence := NatToString(confidence))
  }

  /** The cells as written: the escaped columns through escapeCSVField, the others as they are. */
  function Cells(values: seq<string>): (r: seq<string>)
    ensures |r| == |values|
    ensures forall k :: 0 <= k < |values| && Escaped(k) ==> r[k] == EscapeField(values[k])
    ensures forall k :: 0 <= k < |values| && !Escaped(k) ==> r[k] == values[k]
  {
    seq(|values|, k requires 0 <= k < |values| => if Escaped(k) then EscapeField(values[k]) else values[k])
  }

  /** One line of the log: `[...].join(',') + '\n'`. */
  function Row(c: Columns): (r: string)
    ensures |r| > 0 && r[|r| - 1] == '\n'
  {
    Join(Cells(Values(c))) + ['\n']
  }

  /** The columns the source writes without escaping hold no comma, quote or line feed. */
  predicate PlainWhereUnescaped(c: Columns)
  {
    && !NeedsQuotes(c.participantId) && !NeedsQuotes(c.entryType) && !NeedsQuotes(c.phase) && !NeedsQuotes(c.imageId)
    && !NeedsQuotes(c.imageSize) && !NeedsQuotes(c.phase1Size) && !NeedsQuotes(c.imageType) && !NeedsQuotes(c.paymentResponse)
    && !NeedsQuotes(c.confidence) && !NeedsQuotes(c.responseTime) && !NeedsQuotes(c.attentionCorrect)
    && !NeedsQuotes(c.snackPreference) && !NeedsQuotes(c.desireToEat) && !NeedsQuotes(c.hunger) && !NeedsQuotes(c.fullness)
    && !NeedsQuotes(c.satisfaction) && !NeedsQuotes(c.eatingCapacity) && !NeedsQuotes(c.foodAllergies)
    && !NeedsQuotes(c.foodAllergiesOther) && !NeedsQuotes(c.sessionId) && !NeedsQuotes(c.timestamp)
  }

  /**
   * A row reads back into exactly its 25 column values, whatever the
   * escaped columns hold, provided the columns the source does not escape
   * hold no comma, quote or line feed.
   */
  lemma RowReadsBack(c: Columns)
    requires PlainWhereUnescaped(c)
    ensures ParseRecord(Row(c)) == Some(Values(c))
  {
    var values := Values(c);
    assert forall k :: 0 <= k < |values| && !Escaped(k) ==> !NeedsQuotes(values[k]);
    assert Cells(values) == EscapeAll(values);
    RecordRoundTrip(values);
  }

  /** The identity and clock values a row carries unescaped. */
  predicate PlainContext(participant: string, m: Moment, session: string)
  {
    !NeedsQuotes(participant) && !NeedsQuotes(session) && !NeedsQuotes(m.responseTime) && !NeedsQuotes(m.timestamp)
  }

  /**
   * A phase1_image row carries the image's id, file name and display size,
   * the clock strings and the session, with every Phase-2, attention and
   * questionnaire column empty.
   */
  lemma Phase1Columns(participant: string, image: Image, m: Moment, session: string)
    ensures var c := Phase1Entry(participant, image, m, session);
      && c.participantId == participant && c.entryType == "phase1_image" && c.phase == "1"
      && c.imageId == IntToString(image.id) && c.filename == image.filename.GetOr("")
      && (c.imageSize == "large" <==> image.size == Large) && (c.imageSize == "small" <==> image.size == Small)
      && c.phase1Size == "" && c.imageType == "" && c.memoryResponse == "" && c.paymentResponse == ""
      && c.confidence == "" && c.attentionCheckId == "" && c.attentionResponse == "" && c.attentionCorrect == ""
      && c.responseTime == m.responseTime && c.sessionId == session && c.timestamp == m.timestamp
      && QuestionnaireEmpty(c)
  {
  }

  /** A phase1_image row reads back into exactly its 25 column values. */
  lemma Phase1RowReadsBack(participant: string, image: Image, m: Moment, session: string)
    requires PlainContext(participant, m, session)
    ensures var c := Phase1Entry(participant, image, m, session);
      ParseRecord(Row(c)) == Some(Values(c))
  {
    RowReadsBack(Phase1Entry(participant, image, m, session));
  }

  /**
   * An attention_check row carries the phase, the question id, the answer
   * and whether the answer equals the question's correct answer, with every
   * image and questionnaire column empty.
   */
  lemma AttentionColumns(participant: string, phase: nat, question: Question, response: string,
                         m: Moment, session: string)
    ensures var c := AttentionEntry(participant, phase, question, response, m, session);
      && c.participantId == participant && c.entryType == "attention_check"
      && AllDigits(c.phase) && ParseNat(c.phase) == phase
      && c.attentionCheckId == question.id && c.attentionResponse == response
      && (c.attentionCorrect == "true" <==> response == question.correctAnswer)
      && c.imageId == "" && c.filename == "" && c.imageSize == "" && c.phase1Size == "" && c.imageType == ""
      && c.memoryResponse == "" && c.paymentResponse == "" && c.confidence == ""
      && c.responseTime == m.responseTime && c.sessionId == session && c.timestamp == m.timestamp
      && QuestionnaireEmpty(c)
  {
    NatToStringRoundTrip(phase);
  }

  /** An attention_check row reads back into exactly its 25 column values. */
  lemma AttentionRowReadsBack(participant: string, phase: nat, question: Question, response: string,
                              m: Moment, session: string)
    requires PlainContext(participant, m, session)
    ensures var c := AttentionEntry(participant, phase, question, response, m, session);
      ParseRecord(Row(c)) == Some(Values(c))
  {
    RowReadsBack(AttentionEntry(participant, phase, question, response, m, session));
  }

  /**
   * A phase2_response row: image_type is 'old' exactly when a Phase-1 record
   * has the image's id; phase1_size is the size stored for an old image
   * ('unknown_size' when none was stored) and 'not_shown_in_phase1' for a
   * new one; the memory answer, clock and session columns carry their
   * values and the attention and questionnaire columns are empty.
   */
  lemma Phase2Columns(participant: string, image: Image, phase1: seq<Image>, sizes: map<int, Size>,
                      memory: string, payment: nat, confidence: nat, m: Moment, session: string)
    ensures var c := Phase2Entry(participant, image, phase1, sizes, memory, payment, confidence, m, session);
      && c.participantId == participant && c.entryType == "phase2_response" && c.phase == "2"
      && c.imageId == IntToString(image.id) && c.filename == image.filename.GetOr("")
      && c.imageSize == SizeName(image.size)
      && (c.imageType == "old" <==> HasId(phase1, image.id))
      && (c.imageType == "new" <==> !HasId(phase1, image.id))
      && (HasId(phase1, image.id) && image.id in sizes ==> c.phase1Size == SizeName(sizes[image.id]))
      && (HasId(phase1, image.id) && image.id !in sizes <==> c.phase1Size == "unknown_size")
      && (!HasId(phase1, image.id) <==> c.phase1Size == "not_shown_in_phase1")
      && c.memoryResponse == memory
      && c.attentionCheckId == "" && c.attentionResponse == "" && c.attentionCorrect == ""
      && c.responseTime == m.responseTime && c.sessionId == session && c.timestamp == m.timestamp
      && QuestionnaireEmpty(c)
  {
  }

  /**
   * The payment column of a phase2_response row is dollars with two
   * decimals and reads back as the payment in cents; the confidence column
   * reads back as the confidence.
   */
  lemma Phase2Amounts(participant: string, image: Image, phase1: seq<Image>, sizes: map<int, Size>,
                      memory: string, payment: nat, confidence: nat, m: Moment, session: string)
    ensures var c := Phase2Entry(participant, image, phase1, sizes, memory, payment, confidence, m, session);
      && |c.paymentResponse| >= 4 && c.paymentResponse[|c.paymentResponse| - 3] == '.'
      && AllDigits(c.paymentResponse[..|c.paymentResponse| - 3])
      && AllDigits(c.paymentResponse[|c.paymentResponse| - 2..])
      && ParseCents(c.paymentResponse) == payment
      && AllDigits(c.confidence) && ParseNat(c.confidence) == confidence
  {
    FormatCentsRoundTrip(payment);
    NatToStringRoundTrip(confidence);
  }

  /** A phase2_response row reads back into exactly its 25 column values. */
  lemma Phase2RowReadsBack(participant: string, image: Image, phase1: seq<Image>, sizes: map<int, Size>,
                           memory: string, payment: nat, confidence: nat, m: Moment, session: string)
    requires PlainContext(participant, m, session)
    ensures var c := Phase2Entry(participant, image, phase1, sizes, memory, payment, confidence, m, session);
      ParseRecord(Row(c)) == Some(Values(c))
  {
    RowReadsBack(Phase2Entry(participant, image, phase1, sizes, memory, payment, confidence, m, session));
  }
}
