/** The forget-time approval page (public/assets/js/pages/approve-forget.js):
    the token payload, the merge of that snapshot with the request data the
    API returns, and the page's panels as it moves from loading to a
    decision, a finished request or an error. The URL token, the payload
    decoder, the API results and the engine's TypeError text are inputs. */
module ApproveForget {

  import opened Js
  import HtmlEscape
  import opened Api
  import opened PageCommon

  const ExpiredMarker := "หมดอายุ"
  const LinkExpiredTitle := "ลิงก์หมดอายุ"
  const GenericErrorTitle := "ข้อผิดพลาด"
  const MissingTokenMessage := "ไม่พบ Token หรือลิงก์ไม่ถูกต้อง"
  const FetchFailedMessage := "ไม่สามารถดึงข้อมูลได้"
  const ProcessFailedMessage := "ดำเนินการล้มเหลว"
  const LoadingTitle := "กำลังดำเนินการ..."
  const LoadingSubtitle := "กรุณารอสักครู่"
  const ReviewTitle := "ตรวจสอบคำขอลืมลงเวลา"
  const ReviewSubtitle := "กรุณาเลือกดำเนินการสำหรับคำขอนี้"
  const SuccessTitle := "สำเร็จ"
  const ProcessedTitle := "ดำเนินการเสร็จสิ้น"
  const FailedTitle := "ไม่สามารถดำเนินการได้"
  const InvalidStatusPrefix := "สถานะคำขอไม่ถูกต้อง ("
  const ApprovedTitle := "อนุมัติสำเร็จ"
  const ApprovedMessage := "อนุมัติคำขอเรียบร้อยแล้ว"
  const RejectedTitle := "ปฏิเสธสำเร็จ"
  const RejectedMessage := "ปฏิเสธคำขอเรียบร้อยแล้ว"
  /** Delays, in milliseconds, before the window closes itself. */
  const ShortCloseDelay := 3000
  const LongCloseDelay := 5000

  // ---------------------------------------------------------------------------
  // Text helpers

  /** The text `setText(id, text)` writes: "-" in place of a falsy value. */
  function TextOf(text: Value): (t: string)
    ensures !Truthy(text) ==> t == "-"
    ensures Truthy(text) ==> t == ToStr(text)
  {
    ToStr(Or(text, Str("-")))
  }

  /** `handleError`: the title names an expired link iff the message says so. */
  function ErrorTitleFor(message: string): (title: string)
    ensures title == LinkExpiredTitle <==> Contains(message, ExpiredMarker)
    ensures title == GenericErrorTitle <==> !Contains(message, ExpiredMarker)
  {
    if Contains(message, ExpiredMarker) then LinkExpiredTitle else GenericErrorTitle
  }

  // ---------------------------------------------------------------------------
  // Request data

  const DisplayFields: set<string> := {"employeeName", "date", "currentTime", "time", "type", "reason"}

  /** `snapshot?.field` */
  function SnapshotField(snapshot: Value, field: string): Value {
    if Nullish(snapshot) then Undefined else Get(snapshot, field)
  }

  /** `snapshot?.field || apiData.field` */
  function Prefer(snapshot: Value, apiData: Value, field: string): Value {
    Or(SnapshotField(snapshot, field), Get(apiData, field))
  }

  /** The entries `mergeData` writes over the API data. */
  function Overrides(snapshot: Value, apiData: Value): (o: map<string, Value>)
    ensures o.Keys == DisplayFields + {"status"}
    ensures o["status"] == Get(apiData, "status")
    ensures forall f | f in DisplayFields :: o[f] == Prefer(snapshot, apiData, f)
  {
    map[
      "employeeName" := Prefer(snapshot, apiData, "employeeName"),
      "date" := Prefer(snapshot, apiData, "date"),
      "currentTime" := Prefer(snapshot, apiData, "currentTime"),
      "time" := Prefer(snapshot, apiData, "time"),
      "type" := Prefer(snapshot, apiData, "type"),
      "reason" := Prefer(snapshot, apiData, "reason"),
      "status" := Get(apiData, "status")]
  }

  /** `mergeData(snapshot, apiData)`; None when `apiData` is null or
      undefined, where reading its `status` throws. */
  function MergeData(snapshot: Value, apiData: Value): (m: Option<Value>)
    ensures m.None? <==> Nullish(apiData)
    ensures m.Some? ==> m.value.Obj? && m.value.fields.Keys == SpreadOf(apiData).Keys + DisplayFields + {"status"}
    ensures m.Some? ==> m.value.fields["status"] == Get(apiData, "status")
    ensures m.Some? ==> forall f | f in DisplayFields :: m.value.fields[f] == Prefer(snapshot, apiData, f)
    ensures m.Some? ==> forall k | k in SpreadOf(apiData) && k !in DisplayFields && k != "status" ::
      m.value.fields[k] == SpreadOf(apiData)[k]
  {
    if Nullish(apiData) then None
    else Some(Obj(SpreadOf(apiData) + Overrides(snapshot, apiData)))
  }

  /** Each shown detail comes from the snapshot when it has a truthy value
      there and from the API data otherwise; the status always comes from
      the API data. */
  lemma SnapshotWins(snapshot: Value, apiData: Value, field: string)
    requires !Nullish(apiData) && field in DisplayFields
    ensures var m := MergeData(snapshot, apiData).value.fields;
      && (Truthy(SnapshotField(snapshot, field)) ==> m[field] == SnapshotField(snapshot, field))
      && (!Truthy(SnapshotField(snapshot, field)) ==> m[field] == Get(apiData, field))
      && m["status"] == Get(apiData, "status")
  {
  }

  /** Without a snapshot the request data is taken as the API returned it. */
  lemma MergeWithoutSnapshot(apiData: Value)
    requires apiData.Obj? && DisplayFields + {"status"} <= apiData.fields.Keys
    ensures MergeData(Null, apiData) == Some(apiData)
  {
    var m := MergeData(Null, apiData).value;
    assert m.fields.Keys == apiData.fields.Keys;
    forall k | k in apiData.fields
      ensures m.fields[k] == apiData.fields[k]
    {
      if k in DisplayFields {
        assert SnapshotField(Null, k) == Undefined;
      }
    }
    assert m.fields == apiData.fields;
  }

  /** The outcome of an awaited step: a value, or an error with its message. */
  datatype Outcome = Loaded(data: Value) | Thrown(message: string)

  /** `fetchRequestInfo`, given the API result: a failed call throws with its
      error or a fixed message; a successful one yields `data.data` or
      `data`; null data makes the property read throw a TypeError, whose
      text `typeError` is the engine's. */
  function FetchRequestInfo(res: ApiResult, typeError: string): (o: Outcome)
    ensures o.Thrown? <==> !res.ok || Nullish(res.data)
    ensures !res.ok ==> o.message == ToStr(Or(ErrorOf(res), Str(FetchFailedMessage)))
    ensures o.Loaded? ==> o.data == (if Truthy(Get(res.data, "data")) then Get(res.data, "data") else res.data)
  {
    if !res.ok then Thrown(ToStr(Or(ErrorOf(res), Str(FetchFailedMessage))))
    else if Nullish(res.data) then Thrown(typeError)
    else Loaded(Or(Get(res.data, "data"), res.data))
  }

  // ---------------------------------------------------------------------------
  // The page

  datatype State = Initial | Loading | ActionReady | AlreadyProcessed | Succeeded | Failed

  /** The texts of the six request-detail elements. */
  datatype InfoView = InfoView(name: string, date: string, currentTime: string, time: string, kind: string, reason: string)

  /** What the result panel shows, before its texts are escaped. */
  datatype ResultView =
    | NoResult
    | SuccessView(title: string, message: string)
    | ProcessedView(approved: bool, employeeName: Value, date: Value)
    | ErrorView(title: string, message: string)

  /** The texts interpolated into the result panel's markup, in order; each
      goes through `escapeHtml`, so none carries raw markup, and unescaping
      gives back the title and message, or the employee name and date (a
      falsy one shows as nothing). */
  function Markup(view: ResultView): (texts: seq<string>)
    ensures forall i | 0 <= i < |texts| :: HtmlEscape.NoRawMarkup(texts[i])
    ensures view == NoResult <==> texts == []
    ensures view != NoResult ==> |texts| == 2
    ensures (view.SuccessView? || view.ErrorView?) ==>
      HtmlEscape.Unescape(texts[0], AposEntity) == view.title && HtmlEscape.Unescape(texts[1], AposEntity) == view.message
    ensures view.ProcessedView? ==>
      && HtmlEscape.Unescape(texts[0], AposEntity) == (if Truthy(view.employeeName) then ToStr(view.employeeName) else "")
      && HtmlEscape.Unescape(texts[1], AposEntity) == (if Truthy(view.date) then ToStr(view.date) else "")
  {
    match view
    case NoResult => []
    case SuccessView(title, message) => [EscapeHtml(Str(title)), EscapeHtml(Str(message))]
    case ProcessedView(_, employeeName, date) => [EscapeHtml(employeeName), EscapeHtml(date)]
    case ErrorView(title, message) => [EscapeHtml(Str(title)), EscapeHtml(Str(message))]
  }

  /** The texts `displaySnapshot` leaves in the details: a truthy snapshot
      value replaces the shown one, any other leaves it. */
  function SnapshotInfo(shown: InfoView, snapshot: Value): (r: InfoView)
    ensures r.name == if Truthy(Get(snapshot, "employeeName")) then TextOf(Get(snapshot, "employeeName")) else shown.name
    ensures r.date == if Truthy(Get(snapshot, "date")) then TextOf(Get(snapshot, "date")) else shown.date
    ensures r.currentTime == if Truthy(Get(snapshot, "currentTime")) then TextOf(Get(snapshot, "currentTime")) else shown.currentTime
    ensures r.time == if Truthy(Get(snapshot, "time")) then TextOf(Get(snapshot, "time")) else shown.time
    ensures r.kind == if Truthy(Get(snapshot, "type")) then TextOf(Get(snapshot, "type")) else shown.kind
    ensures r.reason == if Truthy(Get(snapshot, "reason")) then TextOf(Get(snapshot, "reason")) else shown.reason
  {
    var pick := (field: string, old_: string) => if Truthy(Get(snapshot, field)) then TextOf(Get(snapshot, field)) else old_;
    InfoView(pick("employeeName", shown.name), pick("date", shown.date), pick("currentTime", shown.currentTime),
      pick("time", shown.time), pick("type", shown.kind), pick("reason", shown.reason))
  }

  /** The details `showInfo` writes. */
  function DataInfo(data: Value): InfoView {
    InfoView(TextOf(Get(data, "employeeName")), TextOf(Get(data, "date")),
      TextOf(Or(Get(data, "currentTime"), Str("-"))), TextOf(Get(data, "time")), TextOf(Get(data, "type")), TextOf(Get(data, "reason")))
  }

  /** The state the request's status leads to in `showInfo`. */
  function StatusState(data: Value): (s: State)
    ensures s == ActionReady <==> Get(data, "status") == Str("pending")
    ensures s == AlreadyProcessed <==> Get(data, "status") in {Str("approved"), Str("rejected")}
    ensures s in {ActionReady, AlreadyProcessed, Failed}
  {
    var status := Get(data, "status");
    if status == Str("pending") then ActionReady
    else if status == Str("approved") || status == Str("rejected") then AlreadyProcessed
    else Failed
  }

  /** What the `try` block of `initialize` shows given the token's snapshot:
      the merged request data, or the message of what it threw. */
  function RequestOutcome(snapshot: Value, res: ApiResult, typeError: string): Outcome {
    match FetchRequestInfo(res, typeError)
    case Thrown(m) => Thrown(m)
    case Loaded(apiData) =>
      match MergeData(snapshot, apiData)
      case None => Thrown(typeError)
      case Some(data) => Loaded(data)
  }

  /** The request data `initialize` shows, or the message of what it threw. */
  function FinalData(token: string, parse: string -> Option<Value>, res: ApiResult, typeError: string): Outcome {
    RequestOutcome(DecodeToken(token, parse), res, typeError)
  }

  /** The state `initialize` leaves the page in. */
  function InitializedState(token: Option<string>, parse: string -> Option<Value>, res: ApiResult, typeError: string): State {
    if token.None? || token.value == "" then Failed
    else match FinalData(token.value, parse, res, typeError)
      case Thrown(_) => Failed
      case Loaded(data) => StatusState(data)
  }

  /** `initialize` ends with a decision pending, a finished request or an
      error; a decision is offered only for a token, a successful API call
      and a pending request. */
  lemma InitializedStates(token: Option<string>, parse: string -> Option<Value>, res: ApiResult, typeError: string)
    ensures var s := InitializedState(token, parse, res, typeError);
      && s in {ActionReady, AlreadyProcessed, Failed}
      && (s == ActionReady ==>
            && token.Some? && token.value != "" && res.ok
            && Get(FinalData(token.value, parse, res, typeError).data, "status") == Str("pending"))
  {
  }

  class Page {
    var state: State
    var panels: Panels
    var mainTitle: string
    var subtitle: string
    var info: InfoView
    var result: ResultView
    /** Delays of the window closes scheduled so far. */
    var closeTimers: seq<int>
    /** Messages of the error toasts shown so far. */
    var toasts: seq<string>
    var infoRequested: bool
    var buttonsBound: bool

    /** Each state shows its own panels. */
    predicate PanelsMatchState()
      reads this`state, this`panels, this`result
    {
      match state
      case Initial => true
      case Loading => panels.loading && !panels.buttons && !panels.result
      case ActionReady => !panels.loading && panels.buttons && panels.info && !panels.result
      case AlreadyProcessed => panels == ResultOnly && result.ProcessedView?
      case Succeeded => panels == ResultOnly && result.SuccessView?
      case Failed => panels == ResultOnly && result.ErrorView?
    }

    constructor()
      ensures state == Initial && PanelsMatchState()
      ensures closeTimers == [] && toasts == [] && !infoRequested && !buttonsBound
    {
      state := Initial;
      panels := Panels(false, false, false, false, true);
      mainTitle, subtitle := "", "";
      info := InfoView("", "", "", "", "", "");
      result := NoResult;
      closeTimers, toasts := [], [];
      infoRequested, buttonsBound := false, false;
    }

    /** `showLoading()` */
    method ShowLoading()
      modifies this
      ensures state == Loading && PanelsMatchState()
      ensures panels == Panels(true, false, false, false, old(panels.subtitle))
      ensures mainTitle == LoadingTitle && subtitle == LoadingSubtitle
      ensures unchanged(this`info, this`result, this`closeTimers, this`toasts, this`infoRequested, this`buttonsBound)
    {
      panels := Panels(true, false, false, false, panels.subtitle);
      mainTitle, subtitle := LoadingTitle, LoadingSubtitle;
      state := Loading;
    }

    /** The common part of `showSuccess`, `showAlreadyProcessed` and `showError`. */
    method ShowResult(title: string, view: ResultView, next: State, delay: int)
      requires view != NoResult
      requires next == (match view case SuccessView(_, _) => Succeeded case ProcessedView(_, _, _) => AlreadyProcessed case _ => Failed)
      modifies this
      ensures state == next && PanelsMatchState()
      ensures result == view && mainTitle == title
      ensures closeTimers == old(closeTimers) + [delay]
      ensures unchanged(this`subtitle, this`info, this`toasts, this`infoRequested, this`buttonsBound)
    {
      panels := ResultOnly;
      mainTitle := title;
      result := view;
      closeTimers := closeTimers + [delay];
      state := next;
    }

    /** `showSuccess(title, message)`: closes after three seconds. */
    method ShowSuccess(title: string, message: string)
      modifies this
      ensures state == Succeeded && PanelsMatchState()
      ensures result == SuccessView(title, message) && mainTitle == SuccessTitle
      ensures closeTimers == old(closeTimers) + [ShortCloseDelay]
      ensures unchanged(this`subtitle, this`info, this`toasts, this`infoRequested, this`buttonsBound)
    {
      ShowResult(SuccessTitle, SuccessView(title, message), Succeeded, ShortCloseDelay);
    }

    /** `showAlreadyProcessed(data)`: closes after five seconds. */
    method ShowAlreadyProcessed(data: Value)
      modifies this
      ensures state == AlreadyProcessed && PanelsMatchState()
      ensures result == ProcessedView(Get(data, "status") == Str("approved"), Get(data, "employeeName"), Get(data, "date"))
      ensures mainTitle == ProcessedTitle
      ensures closeTimers == old(closeTimers) + [LongCloseDelay]
      ensures unchanged(this`subtitle, this`info, this`toasts, this`infoRequested, this`buttonsBound)
    {
      var view := ProcessedView(Get(data, "status") == Str("approved"), Get(data, "employeeName"), Get(data, "date"));
      ShowResult(ProcessedTitle, view, AlreadyProcessed, LongCloseDelay);
    }

    /** `showError(title, message)`: closes after three seconds. */
    method ShowError(title: string, message: string)
      modifies this
      ensures state == Failed && PanelsMatchState()
      ensures result == ErrorView(title, message) && mainTitle == FailedTitle
      ensures closeTimers == old(closeTimers) + [ShortCloseDelay]
      ensures unchanged(this`subtitle, this`info, this`toasts, this`infoRequested, this`buttonsBound)
    {
      ShowResult(FailedTitle, ErrorView(title, message), Failed, ShortCloseDelay);
    }

    /** `handleError(err)` */
    method HandleError(message: string)
      modifies this
      ensures state == Failed && PanelsMatchState()
      ensures result == ErrorView(ErrorTitleFor(message), message)
      ensures closeTimers == old(closeTimers) + [ShortCloseDelay]
      ensures unchanged(this`subtitle, this`info, this`toasts, this`infoRequested, this`buttonsBound)
    {
      ShowError(ErrorTitleFor(message), message);
    }

    /** `displaySnapshot(snapshot)`: overwrites only the details the snapshot
        has a truthy value for, and shows them. */
    method DisplaySnapshot(snapshot: Value)
      modifies this
      ensures info == SnapshotInfo(old(info), snapshot)
      ensures panels == old(panels).(info := true)
      ensures unchanged(this`state, this`mainTitle, this`subtitle, this`result, this`closeTimers, this`toasts, this`infoRequested, this`buttonsBound)
    {
      var shown := info;
      if Truthy(Get(snapshot, "employeeName")) { shown := shown.(name := TextOf(Get(snapshot, "employeeName"))); }
      if Truthy(Get(snapshot, "date")) { shown := shown.(date := TextOf(Get(snapshot, "date"))); }
      if Truthy(Get(snapshot, "currentTime")) { shown := shown.(currentTime := TextOf(Get(snapshot, "currentTime"))); }
      if Truthy(Get(snapshot, "time")) { shown := shown.(time := TextOf(Get(snapshot, "time"))); }
      if Truthy(Get(snapshot, "type")) { shown := shown.(kind := TextOf(Get(snapshot, "type"))); }
      if Truthy(Get(snapshot, "reason")) { shown := shown.(reason := TextOf(Get(snapshot, "reason"))); }
      info := shown;
      panels := panels.(info := true);
    }

    /** `showInfo(data)`: fills in the details, then lets the status decide. */
    method ShowInfo(data: Value)
      modifies this
      ensures state == StatusState(data) && PanelsMatchState()
      ensures info == DataInfo(data)
      ensures state == ActionReady ==> mainTitle == ReviewTitle && subtitle == ReviewSubtitle && closeTimers == old(closeTimers)
      ensures state == AlreadyProcessed ==>
        && closeTimers == old(closeTimers) + [LongCloseDelay]
        && result == ProcessedView(Get(data, "status") == Str("approved"), Get(data, "employeeName"), Get(data, "date"))
        && mainTitle == ProcessedTitle
      ensures state == Failed ==>
        && closeTimers == old(closeTimers) + [ShortCloseDelay]
        && result == ErrorView(GenericErrorTitle, InvalidStatusPrefix + ToStr(Get(data, "status")) + ")")
        && mainTitle == FailedTitle
      ensures unchanged(this`toasts, this`infoRequested, this`buttonsBound)
    {
      panels := panels.(loading := false, result := false, info := true);
      info := DataInfo(data);
      ShowStatus(data);
    }

    /** The status check of `showInfo`: a pending request offers the
        decision, a decided one is shown as finished, and any other status is
        an error. */
    method ShowStatus(data: Value)
      requires !panels.loading && !panels.result && panels.info
      modifies this
      ensures state == StatusState(data) && PanelsMatchState()
      ensures state == ActionReady ==> mainTitle == ReviewTitle && subtitle == ReviewSubtitle && closeTimers == old(closeTimers)
      ensures state == AlreadyProcessed ==>
        && closeTimers == old(closeTimers) + [LongCloseDelay]
        && result == ProcessedView(Get(data, "status") == Str("approved"), Get(data, "employeeName"), Get(data, "date"))
        && mainTitle == ProcessedTitle
      ensures state == Failed ==>
        && closeTimers == old(closeTimers) + [ShortCloseDelay]
        && result == ErrorView(GenericErrorTitle, InvalidStatusPrefix + ToStr(Get(data, "status")) + ")")
        && mainTitle == FailedTitle
      ensures unchanged(this`info, this`toasts, this`infoRequested, this`buttonsBound)
    {
      var status := Get(data, "status");
      if status == Str("pending") {
        panels := panels.(buttons := true);
        mainTitle, subtitle := ReviewTitle, ReviewSubtitle;
        state := ActionReady;
      } else if status == Str("approved") || status == Str("rejected") {
        ShowAlreadyProcessed(data);
      } else {
        ShowError(GenericErrorTitle, InvalidStatusPrefix + ToStr(status) + ")");
      }
    }

    /** `initialize()`: `configThrows` when `getRuntimeConfig()` throws,
        which happens before anything is shown and outside the `try`, so the
        page is left as it was. Otherwise, without a token the page reports
        an error and does nothing else; with one it shows the token's
        snapshot while loading, fetches the request, shows it, and binds the
        decision buttons. */
    method Initialize(configThrows: bool, token: Option<string>, parse: string -> Option<Value>, res: ApiResult, typeError: string)
      modifies this
      ensures configThrows ==> unchanged(this)
      ensures !configThrows ==> state == InitializedState(token, parse, res, typeError) && PanelsMatchState()
      ensures !configThrows && (token.None? || token.value == "") ==>
        && result == ErrorView(GenericErrorTitle, MissingTokenMessage)
        && closeTimers == old(closeTimers) + [ShortCloseDelay]
        && unchanged(this`infoRequested, this`buttonsBound)
      ensures !configThrows && token.Some? && token.value != "" ==>
        && infoRequested && buttonsBound
        && ShowsOutcome(FinalData(token.value, parse, res, typeError), old(closeTimers))
      ensures unchanged(this`toasts)
    {
      if configThrows {
        return;
      }
      if token.None? || token.value == "" {
        ShowError(GenericErrorTitle, MissingTokenMessage);
        return;
      }
      LoadRequest(token.value, parse, res, typeError);
    }

    /** What the page shows once the request's outcome is known, given the
        close delays scheduled before: a thrown error is shown with the title
        its message selects and closes soon; loaded data fills in the
        details, and its status offers the decision, shows the processed
        view and closes later, or shows the invalid status and closes soon. */
    ghost predicate ShowsOutcome(o: Outcome, timersBefore: seq<int>)
      reads this`state, this`info, this`result, this`mainTitle, this`subtitle, this`closeTimers
    {
      match o
      case Thrown(m) =>
        && state == Failed && result == ErrorView(ErrorTitleFor(m), m) && closeTimers == timersBefore + [ShortCloseDelay]
      case Loaded(data) =>
        && state == StatusState(data) && info == DataInfo(data)
        && (state == ActionReady ==> mainTitle == ReviewTitle && subtitle == ReviewSubtitle && closeTimers == timersBefore)
        && (state == AlreadyProcessed ==>
              && result == ProcessedView(Get(data, "status") == Str("approved"), Get(data, "employeeName"), Get(data, "date"))
              && mainTitle == ProcessedTitle && closeTimers == timersBefore + [LongCloseDelay])
        && (state == Failed ==>
              && result == ErrorView(GenericErrorTitle, InvalidStatusPrefix + ToStr(Get(data, "status")) + ")")
              && mainTitle == FailedTitle && closeTimers == timersBefore + [ShortCloseDelay])
    }

    /** `initialize()` once a token is present: shows the token's snapshot
        while loading, runs the `try` block, then binds the buttons. */
    method LoadRequest(token: string, parse: string -> Option<Value>, res: ApiResult, typeError: string)
      modifies this
      ensures PanelsMatchState() && infoRequested && buttonsBound
      ensures ShowsOutcome(FinalData(token, parse, res, typeError), old(closeTimers))
      ensures unchanged(this`toasts)
    {
      var snapshot := ShowLoadingSnapshot(token, parse);
      infoRequested := true;
      ShowRequest(snapshot, res, typeError);
      buttonsBound := true;
    }

    /** The loading phase of `initialize`: the loading panel, with the
        token's snapshot shown when it decodes to a truthy value. */
    method ShowLoadingSnapshot(token: string, parse: string -> Option<Value>) returns (snapshot: Value)
      modifies this
      ensures snapshot == DecodeToken(token, parse)
      ensures state == Loading && PanelsMatchState()
      ensures Truthy(snapshot) ==> info == SnapshotInfo(old(info), snapshot)
      ensures unchanged(this`closeTimers, this`toasts, this`infoRequested, this`buttonsBound)
    {
      ShowLoading();
      snapshot := DecodeToken(token, parse);
      if Truthy(snapshot) {
        DisplaySnapshot(snapshot);
      }
    }

    /** The `try` block of `initialize` and its `catch`: fetch the request,
        merge it with the snapshot and show it; whatever throws is handled
        as an error. */
    method ShowRequest(snapshot: Value, res: ApiResult, typeError: string)
      modifies this
      ensures PanelsMatchState() && ShowsOutcome(RequestOutcome(snapshot, res, typeError), old(closeTimers))
      ensures unchanged(this`toasts, this`infoRequested, this`buttonsBound)
    {
      var fetched := FetchRequestInfo(res, typeError);
      match fetched {
        case Thrown(m) =>
          HandleError(m);
        case Loaded(apiData) =>
          var merged := MergeData(snapshot, apiData);
          if merged.None? {
            HandleError(typeError);
          } else {
            ShowInfo(merged.value);
          }
      }
    }

    /** `processRequest(token, action, config, reason)` given the API result:
        success shows the action's message and closes; failure shows an error
        toast and returns to the decision, the page's only way back. */
    method ProcessRequest(action: Action, res: ApiResult)
      modifies this
      ensures PanelsMatchState()
      ensures res.ok ==>
        && state == Succeeded
        && closeTimers == old(closeTimers) + [ShortCloseDelay]
        && result == (if action == Approve then SuccessView(ApprovedTitle, ApprovedMessage)
                      else SuccessView(RejectedTitle, RejectedMessage))
        && toasts == old(toasts)
      ensures !res.ok ==>
        && state == ActionReady && mainTitle == ReviewTitle
        && toasts == old(toasts) + [ToStr(Or(ErrorOf(res), Str(ProcessFailedMessage)))]
        && unchanged(this`closeTimers, this`result, this`info)
      ensures unchanged(this`infoRequested, this`buttonsBound)
    {
      ShowLoading();
      if res.ok {
        if action == Approve {
          ShowSuccess(ApprovedTitle, ApprovedMessage);
        } else {
          ShowSuccess(RejectedTitle, RejectedMessage);
        }
      } else {
        toasts := toasts + [ToStr(Or(ErrorOf(res), Str(ProcessFailedMessage)))];
        panels := panels.(loading := false, buttons := true, info := true);
        mainTitle := ReviewTitle;
        state := ActionReady;
      }
    }
  }
}
