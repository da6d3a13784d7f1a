/**
 * The recount bot's dialogue: one session per chat, holding the step of the
 * dialogue, the chosen city and the chosen inventory type. `/start` opens a
 * session, the inline-keyboard answers move it along, and an uploaded file is
 * accepted only at the upload step. Messages sent back, the file download and
 * the spreadsheet upload itself are not modelled; the upload's success is a
 * parameter.
 */
module TelegramBot {
  import opened Wrappers
  import Strings

  datatype Step = City | Clear | Type | Upload | WaitNext

  /** `{ step, city, type }`; `null` is `None`. */
  datatype Session = Session(step: Step, city: Option<string>, sheetType: Option<string>)

  /** `{ step: 'city', city: null, type: null }`. */
  const NewSession: Session := Session(City, None, None)

  /** JavaScript truthiness of a `string | null` field: `null` and `""` are falsy. */
  predicate Truthy(s: Option<string>) {
    s.Some? && s.value != ""
  }

  /** A field inside a template literal: `null` renders as `null`. */
  function FieldText(s: Option<string>): string {
    match s
    case Some(v) => v
    case None => "null"
  }

  /**
   * What every session satisfies between two events: the city step has
   * nothing chosen yet, the clear step has a city, the upload step has a
   * type, and after an upload both are set and non-empty.
   */
  predicate SessionOk(s: Session) {
    && (s.step == City ==> s.city.None? && s.sheetType.None?)
    && (s.step == Clear ==> s.city.Some?)
    && (s.step == Upload ==> s.sheetType.Some?)
    && (s.step == WaitNext ==> Truthy(s.city) && Truthy(s.sheetType))
  }

  // ---------------------------------------------------------------------------
  // Callback answers
  // ---------------------------------------------------------------------------

  /**
   * The session after the callback `data`, or `None` when the session is
   * deleted. The tests run in the handler's order; unknown data changes
   * nothing.
   */
  function CallbackStep(s: Session, data: string): Option<Session> {
    if Strings.StartsWith(data, "city_") then
      Some(s.(city := Some(Strings.ReplaceFirst(data, "city_", "")), step := Clear))
    else if data == "clear_yes" || data == "clear_no" then
      Some(s.(step := Type))
    else if Strings.StartsWith(data, "type_") then
      Some(s.(sheetType := Some(Strings.ReplaceFirst(data, "type_", "")), step := Upload))
    else if data == "next_type" then
      Some(s.(step := Type))
    else if data == "finish" then
      None
    else
      Some(s)
  }

  /** The city is whatever follows `city_`; the type is kept. */
  lemma CityAnswer(s: Session, city: string)
    ensures CallbackStep(s, "city_" + city) == Some(Session(Clear, Some(city), s.sheetType))
  {
    Strings.StartsWithConcat("city_", city);
    Strings.ReplacePrefix("city_" + city, "city_");
    assert ("city_" + city)[|"city_"|..] == city;
  }

  /** The type is whatever follows `type_`; the city is kept. */
  lemma TypeAnswer(s: Session, sheetType: string)
    ensures CallbackStep(s, "type_" + sheetType) == Some(Session(Upload, s.city, Some(sheetType)))
  {
    Strings.StartsWithConcat("type_", sheetType);
    Strings.ReplacePrefix("type_" + sheetType, "type_");
    assert ("type_" + sheetType)[|"type_"|..] == sheetType;
    CharDiffers("type_" + sheetType, "city_", 0);
  }

  /** A string that differs from the prefix at some position of both from the prefix's does not start with it. */
  lemma CharDiffers(s: string, p: string, i: nat)
    requires i < |s| && i < |p| && s[i] != p[i]
    ensures !Strings.StartsWith(s, p)
  {
    if |p| <= |s| {
      assert s[0..|p|][i] == s[i];
    }
  }

  /** Both answers to the clear question lead to the type question; `finish` ends the session. */
  lemma ClearAndFinishAnswers(s: Session)
    ensures CallbackStep(s, "clear_yes") == Some(s.(step := Type))
    ensures CallbackStep(s, "clear_no") == Some(s.(step := Type))
    ensures CallbackStep(s, "next_type") == Some(s.(step := Type))
    ensures CallbackStep(s, "finish") == None
  {
    CharDiffers("clear_yes", "city_", 1);
    CharDiffers("clear_no", "city_", 1);
    CharDiffers("next_type", "city_", 0);
    CharDiffers("next_type", "type_", 0);
    CharDiffers("finish", "city_", 0);
    CharDiffers("finish", "type_", 0);
  }

  /** Data no handler branch recognises leaves the session as it was. */
  lemma UnknownAnswerKeepsSession(s: Session, data: string)
    requires !Strings.StartsWith(data, "city_") && !Strings.StartsWith(data, "type_")
    requires data !in {"clear_yes", "clear_no", "next_type", "finish"}
    ensures CallbackStep(s, data) == Some(s)
  {
  }

  /** Every callback keeps the session invariant. */
  lemma CallbackKeepsSessionOk(s: Session, data: string)
    requires SessionOk(s)
    ensures CallbackStep(s, data).Some? ==> SessionOk(CallbackStep(s, data).value)
  {
  }

  // ---------------------------------------------------------------------------
  // Clearing old sheets
  // ---------------------------------------------------------------------------

  /** The inventory types offered on the type keyboard. */
  const SheetTypes: seq<string> := ["posuda", "hoz", "upakovka"]

  /** The sheet an upload for `city` and `sheetType` writes to: `${city}_${type}`. */
  function SheetName(city: Option<string>, sheetType: string): string {
    FieldText(city) + "_" + sheetType
  }

  /** The sheets the `clear_yes` answer is meant to empty, one per offered type, in keyboard order. */
  function ClearTargets(city: Option<string>): (r: seq<string>)
    ensures |r| == |SheetTypes|
    ensures forall k :: 0 <= k < |r| ==> r[k] == SheetName(city, SheetTypes[k])
  {
    [SheetName(city, "posuda"), SheetName(city, "hoz"), SheetName(city, "upakovka")]
  }

  /** The result of one `await clearSheet(...)` inside its `try`. */
  datatype Attempt = Cleared | Threw(error: string)

  /**
   * The call as written: `clearSheet` is not imported into the bot's module,
   * so evaluating the name throws before any sheet is touched.
   */
  function ClearSheetAsWritten(name: string): Attempt {
    Threw("ReferenceError: clearSheet is not defined")
  }

  /**
   * The `clear_yes` loop as written: one attempt per offered type, each of
   * which throws; the empty `catch` swallows the error, so no sheet is
   * cleared, although the bot then reports the old sheets as cleared.
   */
  method ClearOldSheetsAsWritten(city: Option<string>) returns (attempts: seq<Attempt>)
    ensures |attempts| == |ClearTargets(city)| == 3
    ensures forall k :: 0 <= k < |attempts| ==> !attempts[k].Cleared?
  {
    attempts := [];
    for k := 0 to |SheetTypes|
      invariant |attempts| == k
      invariant forall j :: 0 <= j < k ==> !attempts[j].Cleared?
    {
      attempts := attempts + [ClearSheetAsWritten(SheetName(city, SheetTypes[k]))];
    }
  }

  /** The loop with `clearSheet` imported: every type's sheet of the city, in order. */
  method ClearOldSheets(city: Option<string>) returns (cleared: seq<string>)
    ensures cleared == ClearTargets(city)
  {
    cleared := [];
    for k := 0 to |SheetTypes|
      invariant cleared == ClearTargets(city)[..k]
    {
      assert ClearTargets(city)[..k + 1] == ClearTargets(city)[..k] + [SheetName(city, SheetTypes[k])];
      cleared := cleared + [SheetName(city, SheetTypes[k])];
    }
  }

  /**
   * Clearing covers what the dialogue can then upload: for every type on the
   * keyboard, the sheet an upload for the same city writes is among the
   * cleared ones.
   */
  lemma ClearTargetsCoverUploadRanges(city: string, sheetType: string)
    requires sheetType in SheetTypes
    ensures UploadTarget(Some(Session(Upload, Some(city), Some(sheetType)))) != None
       ==> UploadTarget(Some(Session(Upload, Some(city), Some(sheetType)))).value in ClearTargets(Some(city))
  {
    var k :| 0 <= k < |SheetTypes| && SheetTypes[k] == sheetType;
    assert ClearTargets(Some(city))[k] == SheetName(Some(city), sheetType);
  }

  // ---------------------------------------------------------------------------
  // Documents
  // ---------------------------------------------------------------------------

  /**
   * The sheet an uploaded file goes to, or `None` when the handler refuses
   * it: no session, not at the upload step, or city or type unset or empty.
   */
  function UploadTarget(session: Option<Session>): Option<string> {
    match session
    case None => None
    case Some(s) =>
      if s.step != Upload || !Truthy(s.city) || !Truthy(s.sheetType) then None
      else Some(s.city.value + "_" + s.sheetType.value)
  }

  /**
   * The dialogue can go round: after an upload, `next_type` and a new type
   * answer lead to an upload of that type for the same city.
   */
  lemma NextTypeThenUpload(s: Session, sheetType: string)
    requires s.step == WaitNext && Truthy(s.city) && sheetType != ""
    ensures var afterNext := CallbackStep(s, "next_type");
      && afterNext == Some(s.(step := Type))
      && var afterType := CallbackStep(afterNext.value, "type_" + sheetType);
      && UploadTarget(afterType) == Some(SheetName(s.city, sheetType))
  {
    ClearAndFinishAnswers(s);
    TypeAnswer(s.(step := Type), sheetType);
  }

  /** An upload is accepted exactly at the upload step with a non-empty city and type. */
  lemma UploadTargetIff(s: Session)
    ensures UploadTarget(Some(s)).Some? <==> s.step == Upload && Truthy(s.city) && Truthy(s.sheetType)
    ensures UploadTarget(Some(s)).Some? ==> UploadTarget(Some(s)).value == SheetName(s.city, s.sheetType.value)
  {
  }

  // ---------------------------------------------------------------------------
  // The bot
  // ---------------------------------------------------------------------------

  /** The session a callback works on: the chat's own, or a new one. */
  function CurrentOrNew(sessions: map<int, Session>, chatId: int): Session {
    if chatId in sessions then sessions[chatId] else NewSession
  }

  function SessionOf(sessions: map<int, Session>, chatId: int): Option<Session> {
    if chatId in sessions then Some(sessions[chatId]) else None
  }

  /** The `userSessions` dictionary and the three handlers. */
  class Bot {
    var sessions: map<int, Session>

    ghost predicate Valid()
      reads this
    {
      forall id :: id in sessions ==> SessionOk(sessions[id])
    }

    constructor ()
      ensures sessions == map[] && Valid()
    {
      sessions := map[];
    }

    /** The `/start` handler: a message containing `/start` (re)opens the chat's session. */
    method OnText(chatId: int, text: string)
      requires Valid()
      modifies this
      ensures Valid()
      ensures Strings.Contains(text, "/start") ==> sessions == old(sessions)[chatId := NewSession]
      ensures !Strings.Contains(text, "/start") ==> sessions == old(sessions)
    {
      if Strings.Contains(text, "/start") {
        sessions := sessions[chatId := NewSession];
      }
    }

    /**
     * The `callback_query` handler: opens a session if the chat has none,
     * then applies the answer. For `clear_yes` it returns the sheets the
     * handler asks `clearSheet` to clear, in order. As written every such call
     * throws (`ClearOldSheetsAsWritten`); the model takes the corrected loop
     * (`ClearOldSheets`), in which each of them is cleared.
     */
    method OnCallback(chatId: int, data: string) returns (clearAttempts: seq<string>)
      requires Valid()
      modifies this
      ensures Valid()
      ensures var s := CurrentOrNew(old(sessions), chatId);
        && (CallbackStep(s, data).Some? ==> sessions == old(sessions)[chatId := CallbackStep(s, data).value])
        && (CallbackStep(s, data).None? ==> sessions == old(sessions) - {chatId})
      ensures clearAttempts == if data == "clear_yes" then ClearTargets(CurrentOrNew(old(sessions), chatId).city) else []
    {
      var current := CurrentOrNew(sessions, chatId);
      sessions := sessions[chatId := current];
      CallbackKeepsSessionOk(current, data);
      match CallbackStep(current, data) {
        case Some(next) =>
          sessions := sessions[chatId := next];
        case None =>
          sessions := sessions - {chatId};
      }
      clearAttempts := [];
      if data == "clear_yes" {
        ClearAndFinishAnswers(current);
        clearAttempts := ClearOldSheets(current.city);
      }
    }

    /**
     * The `document` handler: a refused file changes nothing; an accepted one
     * is uploaded to the returned sheet, and only a successful upload moves
     * the session on to `wait_next`, so a failed one can be retried.
     */
    method OnDocument(chatId: int, uploadSucceeds: bool) returns (target: Option<string>)
      requires Valid()
      modifies this
      ensures Valid()
      ensures target == UploadTarget(SessionOf(old(sessions), chatId))
      ensures target.Some? && uploadSucceeds ==> sessions == old(sessions)[chatId := old(sessions)[chatId].(step := WaitNext)]
      ensures !(target.Some? && uploadSucceeds) ==> sessions == old(sessions)
    {
      if chatId !in sessions {
        return None;
      }
      var session := sessions[chatId];
      if session.step != Upload || !Truthy(session.city) || !Truthy(session.sheetType) {
        return None;
      }
      target := Some(session.city.value + "_" + session.sheetType.value);
      if uploadSucceeds {
        sessions := sessions[chatId := session.(step := WaitNext)];
      }
    }
  }
}
