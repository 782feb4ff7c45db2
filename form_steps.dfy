/**
 * The per-user conversation of the bot (bot.py): the step the user is on,
 * the answers kept for the order so far, and the orders table the handlers
 * write to. Each handler is a method; an answer that a check rejects leaves
 * the step, the answers and the table as they were.
 *
 * The aiogram dispatcher is not modelled: a handler is called only in the
 * step its filter names, which is its precondition. A handler that raises
 * (a missing text, a refused column, a missing key) stops where the
 * exception is thrown; what was already done stays done.
 */
module FormSteps {
  import opened Wrappers
  import opened Text
  import opened OrdersDb
  import opened BotForm

  /** The FSM states of the two order forms; `Idle` is no state. */
  datatype Step =
    | Idle
    | EngineBrand | EngineYear | EngineIssue | EngineUrgency | EngineComment | WaitingEngineComment
    | Photo | WorkType | ExtraQuestion | MachiningComment | WaitingComment

  /** The FSM data of a conversation: each key is either stored or absent. */
  datatype FormData = FormData(
    orderId: Option<nat>,
    photoIds: Option<seq<string>>,
    brand: Option<string>,
    year: Option<string>,
    issue: Option<string>,
    urgency: Option<string>,
    tempComment: Option<string>)

  /** The data after `state.clear()`. */
  const Cleared := FormData(None, None, None, None, None, None, None)

  /** How a handler ended. */
  datatype Outcome =
    | Advanced    // the answer was taken and the step moved on
    | Rejected    // the answer was refused and the user asked again
    | Raised      // an exception ended the handler
    | Aborted     // no order in the data: the conversation was cleared
    | Completed   // the order was finished and the conversation cleared
    | Unhandled   // handed to the lost-session recovery

  /** `if order_id:` on the stored order id. */
  predicate HasOrder(d: FormData) {
    d.orderId.Some? && d.orderId.value != 0
  }

  /** `message.from_user.username or "NoNick"` */
  function Nick(username: Option<string>): string {
    if Truthy(username) then username.value else "NoNick"
  }

  /** The `order_type` of an engine-repair order. */
  const EngineOrderType := "engine_repair"

  class Conversation {
    var step: Step
    var data: FormData
    const db: OrdersTable

    ghost predicate Valid()
      reads this, db
    {
      db.Valid()
    }

    constructor(db: OrdersTable)
      requires db.Valid()
      ensures Valid() && step == Idle && data == Cleared && this.db == db
    {
      step := Idle;
      data := Cleared;
      this.db := db;
    }

    // -------------------------------------------------------------------------
    // Engine repair

    /** `start_engine_flow`: old drafts are cancelled, a new draft is created and the brand is asked for. */
    method StartEngineFlow(userId: int, username: Option<string>, fullName: string) returns (oid: nat)
      requires Valid()
      modifies this, db
      ensures Valid() && oid == old(db.nextId) && db.nextId == oid + 1
      ensures db.rows == CancelFilling(old(db.rows), userId)[oid := Order(userId, Nick(username), fullName, EngineOrderType, "filling", map[])]
      ensures step == EngineBrand && data == Cleared.(orderId := Some(oid))
    {
      db.CancelOldFillingOrders(userId);
      oid := db.CreateOrder(userId, Nick(username), fullName, EngineOrderType);
      data := Cleared.(orderId := Some(oid));
      step := EngineBrand;
    }

    /**
     * The common tail of the brand, year and issue handlers: write the column
     * when there is an order (raising if the column is refused), then store
     * the answer and move to `next`.
     */
    method Store(field: string, val: string, answers: FormData, next: Step) returns (outcome: Outcome)
      requires Valid()
      modifies this, db
      ensures Valid() && db.nextId == old(db.nextId)
      ensures outcome == Advanced || outcome == Raised
      ensures outcome == Advanced <==> !HasOrder(old(data)) || field in db.allowed
      ensures outcome == Raised ==> step == old(step) && data == old(data) && db.rows == old(db.rows)
      ensures outcome == Advanced ==> step == next && data == answers
      ensures outcome == Advanced && HasOrder(old(data)) ==> db.rows == SetField(old(db.rows), old(data).orderId.value, field, val)
      ensures outcome == Advanced && !HasOrder(old(data)) ==> db.rows == old(db.rows)
    {
      if HasOrder(data) {
        var accepted := db.UpdateOrderField(data.orderId.value, field, val);
        if !accepted {
          return Raised;
        }
      }
      data := answers;
      step := next;
      outcome := Advanced;
    }

    /** `engine_brand_handler`: stores `car_brand` and asks for the year. */
    method SubmitBrand(text: Option<string>) returns (outcome: Outcome)
      requires Valid() && step == EngineBrand
      modifies this, db
      ensures Valid() && db.nextId == old(db.nextId)
      ensures outcome == Advanced <==>
        text.Some? && CheckBrand(text.value).Some? && (!HasOrder(old(data)) || "car_brand" in db.allowed)
      ensures outcome != Advanced ==> step == old(step) && data == old(data) && db.rows == old(db.rows)
      ensures outcome == Advanced ==> step == EngineYear && data == old(data).(brand := CheckBrand(text.value))
      ensures text.Some? && CheckBrand(text.value).None? ==> outcome == Rejected
      ensures text.Some? && CheckBrand(text.value).Some? && HasOrder(old(data)) && "car_brand" !in db.allowed ==> outcome == Raised
      ensures outcome == Advanced && HasOrder(old(data)) ==>
        db.rows == SetField(old(db.rows), old(data).orderId.value, "car_brand", CheckBrand(text.value).value)
      ensures outcome == Advanced && !HasOrder(old(data)) ==> db.rows == old(db.rows)
    {
      if text.None? {
        return Raised;
      }
      var brand := CheckBrand(text.value);
      if brand.None? {
        return Rejected;
      }
      outcome := Store("car_brand", brand.value, data.(brand := brand), EngineYear);
    }

    /** `engine_year_handler`: stores `car_year` and asks for the issue. */
    method SubmitYear(text: Option<string>) returns (outcome: Outcome)
      requires Valid() && step == EngineYear
      modifies this, db
      ensures Valid() && db.nextId == old(db.nextId)
      ensures outcome == Advanced <==>
        text.Some? && CheckYear(text.value).Some? && (!HasOrder(old(data)) || "car_year" in db.allowed)
      ensures outcome != Advanced ==> step == old(step) && data == old(data) && db.rows == old(db.rows)
      ensures outcome == Advanced ==> step == EngineIssue && data == old(data).(year := CheckYear(text.value))
      ensures text.Some? && CheckYear(text.value).None? ==> outcome == Rejected
      ensures text.Some? && CheckYear(text.value).Some? && HasOrder(old(data)) && "car_year" !in db.allowed ==> outcome == Raised
      ensures outcome == Advanced && HasOrder(old(data)) ==>
        db.rows == SetField(old(db.rows), old(data).orderId.value, "car_year", CheckYear(text.value).value)
      ensures outcome == Advanced && !HasOrder(old(data)) ==> db.rows == old(db.rows)
    {
      if text.None? {
        return Raised;
      }
      var year := CheckYear(text.value);
      if year.None? {
        return Rejected;
      }
      outcome := Store("car_year", year.value, data.(year := year), EngineIssue);
    }

    /** `engine_issue_handler`: stores `engine_issue` and asks for the urgency. */
    method SubmitIssue(text: Option<string>) returns (outcome: Outcome)
      requires Valid() && step == EngineIssue
      modifies this, db
      ensures Valid() && db.nextId == old(db.nextId)
      ensures outcome == Advanced <==>
        text.Some? && CheckIssue(text.value).Some? && (!HasOrder(old(data)) || "engine_issue" in db.allowed)
      ensures outcome != Advanced ==> step == old(step) && data == old(data) && db.rows == old(db.rows)
      ensures outcome == Advanced ==> step == EngineUrgency && data == old(data).(issue := CheckIssue(text.value))
      ensures text.Some? && CheckIssue(text.value).None? ==> outcome == Rejected
      ensures text.Some? && CheckIssue(text.value).Some? && HasOrder(old(data)) && "engine_issue" !in db.allowed ==> outcome == Raised
      ensures outcome == Advanced && HasOrder(old(data)) ==>
        db.rows == SetField(old(db.rows), old(data).orderId.value, "engine_issue", CheckIssue(text.value).value)
      ensures outcome == Advanced && !HasOrder(old(data)) ==> db.rows == old(db.rows)
    {
      if text.None? {
        return Raised;
      }
      var issue := CheckIssue(text.value);
      if issue.None? {
        return Rejected;
      }
      outcome := Store("engine_issue", issue.value, data.(issue := issue), EngineUrgency);
    }

    /**
     * `engine_urgency_handler`: an unknown callback changes nothing; otherwise
     * the label is kept in the data first and then written to `urgency`.
     */
    method ChooseUrgency(callbackData: string) returns (outcome: Outcome)
      requires Valid() && step == EngineUrgency
      modifies this, db
      ensures Valid() && db.nextId == old(db.nextId)
      ensures CheckUrgency(callbackData).None? <==> outcome == Rejected
      ensures outcome == Rejected ==> step == old(step) && data == old(data) && db.rows == old(db.rows)
      ensures outcome != Rejected ==> data == old(data).(urgency := CheckUrgency(callbackData))
      ensures outcome == Advanced <==> CheckUrgency(callbackData).Some? && (!HasOrder(old(data)) || "urgency" in db.allowed)
      ensures outcome == Advanced ==> step == EngineComment
      ensures outcome == Advanced && HasOrder(old(data)) ==>
        db.rows == SetField(old(db.rows), old(data).orderId.value, "urgency", CheckUrgency(callbackData).value)
      ensures outcome == Advanced && !HasOrder(old(data)) ==> db.rows == old(db.rows)
      ensures outcome == Rejected || outcome == Advanced || outcome == Raised
      ensures outcome == Raised ==> step == old(step) && db.rows == old(db.rows)
    {
      var chosen := CheckUrgency(callbackData);
      if chosen.None? {
        return Rejected;
      }
      data := data.(urgency := chosen);
      if HasOrder(data) {
        var accepted := db.UpdateOrderField(data.orderId.value, "urgency", chosen.value);
        if !accepted {
          return Raised;
        }
      }
      step := EngineComment;
      outcome := Advanced;
    }

    /**
     * `finish_engine_order`: the issue and the comment become the order's
     * `comment`, the order becomes `'new'`, and the conversation is cleared.
     */
    method FinishEngineOrder(comment: string) returns (outcome: Outcome)
      requires Valid() && HasOrder(data)
      modifies this, db
      ensures Valid() && db.nextId == old(db.nextId)
      ensures outcome == Completed <==> "comment" in db.allowed
      ensures outcome == Completed ==> step == Idle && data == Cleared
      ensures outcome == Completed ==>
        var oid := old(data).orderId.value;
        db.rows == SetField(SetField(old(db.rows), oid, "comment", EngineFinalComment(old(data).issue.GetOr(""), comment)), oid, "status", "new")
      ensures outcome != Completed ==> outcome == Raised && step == old(step) && data == old(data) && db.rows == old(db.rows)
    {
      var oid := data.orderId.value;
      var accepted := db.UpdateOrderField(oid, "comment", EngineFinalComment(data.issue.GetOr(""), comment));
      if !accepted {
        return Raised;
      }
      db.FinishOrderCreation(oid);
      step := Idle;
      data := Cleared;
      outcome := Completed;
    }

    /** `engine_comment_handler`: finish without a comment, ask for one, or take the text as the comment. */
    method SubmitEngineComment(m: Message) returns (outcome: Outcome)
      requires Valid() && step == EngineComment
      modifies this, db
      ensures Valid() && db.nextId == old(db.nextId)
      ensures !HasOrder(old(data)) ==> outcome == Aborted && step == Idle && data == Cleared && db.rows == old(db.rows)
      ensures HasOrder(old(data)) && SafeText(m) == AddCommentButton ==>
        outcome == Advanced && step == WaitingEngineComment && data == old(data) && db.rows == old(db.rows)
      ensures HasOrder(old(data)) && SafeText(m) != AddCommentButton ==>
        (outcome == Completed <==> "comment" in db.allowed)
      ensures HasOrder(old(data)) && SafeText(m) != AddCommentButton && outcome != Completed ==>
        outcome == Raised && step == old(step) && data == old(data) && db.rows == old(db.rows)
      ensures outcome == Completed ==> step == Idle && data == Cleared
      ensures HasOrder(old(data)) && SafeText(m) != AddCommentButton && outcome == Completed ==>
        var oid := old(data).orderId.value;
        var text := EngineFinalComment(old(data).issue.GetOr(""), ChooseComment(SafeText(m)).comment);
        db.rows == SetField(SetField(old(db.rows), oid, "comment", text), oid, "status", "new")
    {
      var txt := SafeText(m);
      if !HasOrder(data) {
        step := Idle;
        data := Cleared;
        return Aborted;
      }
      match ChooseComment(txt)
      case AskForComment =>
        step := WaitingEngineComment;
        outcome := Advanced;
      case Finish(c) =>
        outcome := FinishEngineOrder(c);
    }

    /** `process_engine_user_comment`: the message, read by `safe_text`, is the comment. */
    method SubmitEngineUserComment(m: Message) returns (outcome: Outcome)
      requires Valid() && step == WaitingEngineComment
      modifies this, db
      ensures Valid() && db.nextId == old(db.nextId)
      ensures !HasOrder(old(data)) ==> outcome == Aborted && step == Idle && data == Cleared && db.rows == old(db.rows)
      ensures HasOrder(old(data)) ==> (outcome == Completed <==> "comment" in db.allowed)
      ensures HasOrder(old(data)) && outcome != Completed ==>
        outcome == Raised && step == old(step) && data == old(data) && db.rows == old(db.rows)
      ensures outcome == Completed ==> step == Idle && data == Cleared
      ensures HasOrder(old(data)) && outcome == Completed ==>
        var oid := old(data).orderId.value;
        var text := EngineFinalComment(old(data).issue.GetOr(""), SafeText(m));
        db.rows == SetField(SetField(old(db.rows), oid, "comment", text), oid, "status", "new")
    {
      var txt := SafeText(m);
      if !HasOrder(data) {
        step := Idle;
        data := Cleared;
        return Aborted;
      }
      outcome := FinishEngineOrder(txt);
    }

    // -------------------------------------------------------------------------
    // Machining

    /** `start_machining_flow`: a new `'machining'` draft with an empty photo list. */
    method StartMachiningFlow(userId: int, username: Option<string>, fullName: string) returns (oid: nat)
      requires Valid()
      modifies this, db
      ensures Valid() && oid == old(db.nextId) && db.nextId == oid + 1
      ensures db.rows == CancelFilling(old(db.rows), userId)[oid := Order(userId, Nick(username), fullName, "machining", "filling", map[])]
      ensures step == Photo && data == Cleared.(orderId := Some(oid), photoIds := Some([]))
    {
      data := Cleared;
      db.CancelOldFillingOrders(userId);
      oid := db.CreateOrder(userId, Nick(username), fullName, "machining");
      data := data.(orderId := Some(oid), photoIds := Some([]));
      step := Photo;
    }

    /** `process_photo`: the file id of the largest size is appended to the list. */
    method AddPhoto(fileId: string)
      requires Valid() && step == Photo
      modifies this
      ensures Valid() && step == old(step)
      ensures data == old(data).(photoIds := Some(old(data).photoIds.GetOr([]) + [fileId]))
    {
      var ids := data.photoIds.GetOr([]);
      data := data.(photoIds := Some(ids + [fileId]));
    }

    /**
     * `process_photo_done`: the "all sent" button stores the comma-joined ids
     * (an empty list is refused); the skip button goes on without photos
     * unless photos are required; anything else goes to session recovery.
     */
    method PhotosDone(m: Message, cfg: map<string, string>) returns (outcome: Outcome)
      requires Valid() && step == Photo
      modifies this, db
      ensures Valid() && db.nextId == old(db.nextId) && data == old(data)
      ensures outcome == Advanced <==>
        || (SafeText(m) == AllPhotosButton && old(data).photoIds.GetOr([]) != [] && old(data).orderId.Some?
            && "photo_file_id" in db.allowed)
        || (SafeText(m) != AllPhotosButton && SafeText(m) == GetText(cfg, "btn_skip_photo")
            && !ConfigBool(cfg, "is_photo_required"))
      ensures SafeText(m) == AllPhotosButton && old(data).photoIds.GetOr([]) == [] ==> outcome == Rejected
      ensures outcome == Advanced ==> step == WorkType
      ensures outcome != Advanced ==> step == old(step) && db.rows == old(db.rows)
      ensures outcome == Advanced && SafeText(m) == AllPhotosButton ==>
        db.rows == SetField(old(db.rows), old(data).orderId.value, "photo_file_id", Join(old(data).photoIds.value, ","))
      ensures outcome == Advanced && SafeText(m) != AllPhotosButton ==> db.rows == old(db.rows)
    {
      var txt := SafeText(m);
      var ids := data.photoIds.GetOr([]);
      if txt == AllPhotosButton {
        if ids == [] {
          return Rejected;
        }
        if data.orderId.None? {
          return Raised;
        }
        var accepted := db.UpdateOrderField(data.orderId.value, "photo_file_id", Join(ids, ","));
        if !accepted {
          return Raised;
        }
        step := WorkType;
        outcome := Advanced;
      } else if txt == GetText(cfg, "btn_skip_photo") && !ConfigBool(cfg, "is_photo_required") {
        step := WorkType;
        outcome := Advanced;
      } else {
        outcome := Unhandled;
      }
    }

    /** `process_extra` then `ask_final`: the extra answer is kept as the comment's first line. */
    method SubmitExtra(m: Message)
      requires Valid() && step == ExtraQuestion
      modifies this
      ensures Valid() && step == MachiningComment
      ensures data == old(data).(tempComment := Some(ExtraNote(SafeText(m))))
    {
      data := data.(tempComment := Some(ExtraNote(SafeText(m))));
      step := MachiningComment;
    }

    /** `finish_order`: the comment is stored, the order becomes `'new'`, the conversation is cleared. */
    method FinishOrder(oid: nat, comment: string) returns (outcome: Outcome)
      requires Valid()
      modifies this, db
      ensures Valid() && db.nextId == old(db.nextId)
      ensures outcome == Completed <==> "comment" in db.allowed
      ensures outcome == Completed ==> step == Idle && data == Cleared
      ensures outcome == Completed ==> db.rows == SetField(SetField(old(db.rows), oid, "comment", comment), oid, "status", "new")
      ensures outcome != Completed ==> outcome == Raised && step == old(step) && data == old(data) && db.rows == old(db.rows)
    {
      var accepted := db.UpdateOrderField(oid, "comment", comment);
      if !accepted {
        return Raised;
      }
      db.FinishOrderCreation(oid);
      step := Idle;
      data := Cleared;
      outcome := Completed;
    }

    /** `process_comment`: the machining form's last step. */
    method SubmitComment(m: Message) returns (outcome: Outcome)
      requires Valid() && step == MachiningComment
      modifies this, db
      ensures Valid() && db.nextId == old(db.nextId)
      ensures old(data).orderId.None? ==> outcome == Raised && step == old(step) && data == old(data) && db.rows == old(db.rows)
      ensures old(data).orderId.Some? && SafeText(m) == AddCommentButton ==>
        outcome == Advanced && step == WaitingComment && data == old(data) && db.rows == old(db.rows)
      ensures old(data).orderId.Some? && SafeText(m) != AddCommentButton ==>
        (outcome == Completed <==> "comment" in db.allowed)
      ensures old(data).orderId.Some? && SafeText(m) != AddCommentButton && outcome != Completed ==>
        outcome == Raised && step == old(step) && data == old(data) && db.rows == old(db.rows)
      ensures outcome == Completed ==> step == Idle && data == Cleared
      ensures old(data).orderId.Some? && SafeText(m) != AddCommentButton && outcome == Completed ==>
        var oid := old(data).orderId.value;
        var text := MachiningFinalComment(old(data).tempComment, ChooseComment(SafeText(m)).comment);
        db.rows == SetField(SetField(old(db.rows), oid, "comment", text), oid, "status", "new")
    {
      var txt := SafeText(m);
      if data.orderId.None? {
        return Raised;
      }
      var oid := data.orderId.value;
      match ChooseComment(txt)
      case AskForComment =>
        step := WaitingComment;
        outcome := Advanced;
      case Finish(c) =>
        outcome := FinishOrder(oid, MachiningFinalComment(data.tempComment, c));
    }

    /** `process_user_comment`: the message, read by `safe_text`, completes the comment. */
    method SubmitUserComment(m: Message) returns (outcome: Outcome)
      requires Valid() && step == WaitingComment
      modifies this, db
      ensures Valid() && db.nextId == old(db.nextId)
      ensures old(data).orderId.None? ==> outcome == Raised && step == old(step) && data == old(data) && db.rows == old(db.rows)
      ensures old(data).orderId.Some? ==> (outcome == Completed <==> "comment" in db.allowed)
      ensures old(data).orderId.Some? && outcome != Completed ==>
        outcome == Raised && step == old(step) && data == old(data) && db.rows == old(db.rows)
      ensures outcome == Completed ==> step == Idle && data == Cleared
      ensures old(data).orderId.Some? && outcome == Completed ==>
        var oid := old(data).orderId.value;
        var text := MachiningFinalComment(old(data).tempComment, SafeText(m));
        db.rows == SetField(SetField(old(db.rows), oid, "comment", text), oid, "status", "new")
    {
      var txt := SafeText(m);
      if data.orderId.None? {
        return Raised;
      }
      outcome := FinishOrder(data.orderId.value, MachiningFinalComment(data.tempComment, txt));
    }
  }

  // ---------------------------------------------------------------------------
  // The engine form against the allow-list

  /**
   * With `ALLOWED_FIELDS` as written, any valid brand for a fresh engine order
   * makes the handler raise, and the form never leaves the brand step.
   */
  method EngineFormAsWritten(userId: int, username: Option<string>, fullName: string, brand: string)
    returns (outcome: Outcome, step: Step)
    ensures CheckBrand(brand).Some? ==> outcome == Raised
    ensures step == EngineBrand
  {
    var db := new OrdersTable(AllowedFields);
    var chat := new Conversation(db);
    var oid := chat.StartEngineFlow(userId, username, fullName);
    EngineFieldsRefused();
    outcome := chat.SubmitBrand(Some(brand));
    step := chat.step;
  }

  /** With the engine columns allowed, valid answers carry the form to the urgency step. */
  method EngineFormCorrected(userId: int, username: Option<string>, fullName: string, brand: string, year: string, issue: string)
    returns (outcomes: seq<Outcome>, step: Step)
    requires CheckBrand(brand).Some? && CheckYear(year).Some? && CheckIssue(issue).Some?
    ensures outcomes == [Advanced, Advanced, Advanced] && step == EngineUrgency
  {
    var db := new OrdersTable(CorrectedAllowedFields);
    var chat := new Conversation(db);
    var oid := chat.StartEngineFlow(userId, username, fullName);
    EngineFieldsAllowed();
    var first := chat.SubmitBrand(Some(brand));
    var second := chat.SubmitYear(Some(year));
    var third := chat.SubmitIssue(Some(issue));
    outcomes := [first, second, third];
    step := chat.step;
  }
}
