/** The registration approval page (public/assets/js/pages/approve-register.js):
    the masked ID-card number, the token check with its expiry gate, the
    body of the approve call, and the page's panels as it moves from the
    status check to a decision, an already-approved notice, a success or
    an error. The URL token, the payload decoder, the clock, the Thai date
    formatter and the API results are inputs. */
module ApproveRegister {

  import opened Js
  import HtmlEscape
  import opened Api
  import opened PageCommon

  const LoadingTitle := "กำลังดำเนินการ..."
  const LoadingSubtitle := "กรุณารอสักครู่"
  const CheckingTitle := "กำลังตรวจสอบสถานะ..."
  const ReviewTitle := "ตรวจสอบคำขอลงทะเบียน"
  const ReviewSubtitle := "กรุณาเลือกดำเนินการสำหรับคำขอลงทะเบียนนี้"
  const SuccessTitle := "สำเร็จ"
  const AlreadyApprovedTitle := "ลงทะเบียนเรียบร้อยแล้ว"
  const FailedTitle := "ไม่สามารถดำเนินการได้"
  const NoTokenMessage := "ไม่พบ Token การยืนยันตัวตน"
  const InvalidTokenMessage := "Token ไม่ถูกต้อง"
  const ExpiredMessage := "ลิงก์การอนุมัตินี้หมดอายุแล้ว (30 นาที) กรุณาดำเนินการใหม่อีกครั้ง"
  const StatusCheckFailedMessage := "ไม่สามารถตรวจสอบสถานะการลงทะเบียนได้"
  const ConnectionFailedMessage := "ไม่สามารถเชื่อมต่อกับเซิร์ฟเวอร์ได้"
  const ActionDoneTitle := "ดำเนินการสำเร็จ"
  const ActionFailedMessage := "เกิดข้อผิดพลาดในการดำเนินการ"
  /** `showSuccess`'s default number of seconds before the window closes. */
  const DefaultAutoCloseSeconds := 5
  /** Milliseconds before the already-approved notice closes the window. */
  const AlreadyApprovedCloseDelay := 3000

  // ---------------------------------------------------------------------------
  // ID card masking

  /** The masked form of a string of at least 13 characters: characters 3 to
      8 become 'x'. */
  function MaskString(s: string): (r: string)
    requires |s| >= 13
    ensures |r| == |s|
    ensures r[..3] == s[..3] && r[9..] == s[9..]
    ensures forall i | 3 <= i < 9 :: r[i] == 'x'
  {
    s[..3] + "xxxxxx" + s[9..]
  }

  /** `length < 13` for the `length` property of a value that is not a
      string or an array: the property is converted with `Number`, and NaN
      compares false. */
  predicate LengthBelow13(length: Value) {
    match ToNumber(length)
    case Finite(r) => r < 13.0
    case Infinity(negative) => negative
    case NaN => false
  }

  /** `maskIDCard(idCard)`. Falsy values, and values whose `length` is
      below 13, come back unchanged: short strings and arrays, and objects
      with such a `length` property. None where the call throws, on any
      other truthy value that is not a string, since it has no `substring`. */
  function MaskIDCard(idCard: Value): (r: Option<Value>)
    ensures !Truthy(idCard) ==> r == Some(idCard)
    ensures idCard.Str? && |idCard.s| < 13 ==> r == Some(idCard)
    ensures idCard.Str? && |idCard.s| >= 13 ==> r == Some(Str(MaskString(idCard.s)))
    ensures idCard.Obj? && LengthBelow13(Get(idCard, "length")) ==> r == Some(idCard)
    ensures r.None? <==>
      && Truthy(idCard) && !idCard.Str?
      && !(idCard.Arr? && |idCard.items| < 13)
      && !(idCard.Obj? && LengthBelow13(Get(idCard, "length")))
    ensures r.Some? && r.value != idCard ==> idCard.Str? && |idCard.s| >= 13
  {
    if !Truthy(idCard) then Some(idCard)
    else match idCard
      case Str(s) => if |s| < 13 then Some(idCard) else Some(Str(MaskString(s)))
      case Arr(items) => if |items| < 13 then Some(idCard) else None
      case Obj(_) => if LengthBelow13(Get(idCard, "length")) then Some(idCard) else None
      case _ => None
  }

  /** An object is returned as it is when its `length` converts to a number
      below 13 (a number, null, or a numeric string), and masking it throws
      otherwise. */
  lemma MaskIDCardObjects()
    ensures MaskIDCard(Obj(map["length" := Num(Finite(5.0))])) == Some(Obj(map["length" := Num(Finite(5.0))]))
    ensures MaskIDCard(Obj(map["length" := Null])) == Some(Obj(map["length" := Null]))
    ensures MaskIDCard(Obj(map["length" := Num(Finite(13.0))])).None?
    ensures MaskIDCard(Obj(map[])).None?
  {
  }

  lemma MaskIDCardNumericLength(card: Value)
    requires card == Obj(map["length" := Str("3")])
    ensures MaskIDCard(card) == Some(card)
  {
    StringToNumberOfDigits("3");
    assert DigitsValue("3") == 3 by {
      assert "3"[..0] == [];
    }
    assert ToNumber(Get(card, "length")) == Finite(3.0);
  }

  /** Masking keeps the length and the first three and last four digits of
      a 13-digit number, hides the rest, and masking again changes nothing. */
  lemma MaskIDCardExample()
    ensures MaskIDCard(Str("1234567890123")) == Some(Str("123xxxxxx0123"))
  {
    var s := "1234567890123";
    assert s[..3] == "123" && s[9..] == "0123";
    assert MaskString(s) == "123" + "xxxxxx" + "0123" == "123xxxxxx0123";
    assert Truthy(Str(s));
  }

  lemma MaskIdempotent(s: string)
    requires |s| >= 13
    ensures MaskString(MaskString(s)) == MaskString(s)
  {
    var m := MaskString(s);
    assert MaskString(m) == m[..3] + "xxxxxx" + m[9..];
    assert m == m[..3] + "xxxxxx" + m[9..];
  }

  /** `formatDateThai(dateStr)` followed by `|| "-"`: "-" for a falsy value
      or an empty formatted date; the formatting itself is `format`. */
  function StartDateText(dateStr: Value, format: Value -> string): (t: string)
    ensures !Truthy(dateStr) ==> t == "-"
    ensures Truthy(dateStr) && format(dateStr) != "" ==> t == format(dateStr)
    ensures t != ""
  {
    var formatted := if !Truthy(dateStr) then "-" else format(dateStr);
    if formatted == "" then "-" else formatted
  }

  // ---------------------------------------------------------------------------
  // Token check

  datatype TokenCheck = NoToken | InvalidToken | ExpiredToken | ValidToken(userData: Value)

  /** `exp * 1000 < Date.now()`: `exp` is taken as seconds, converted with
      `Number`; a value that does not convert never expires. */
  function ExpiredBefore(exp: Value, now: int): (expired: bool)
    ensures ToNumber(exp).NaN? ==> !expired
    ensures ToNumber(exp).Infinity? ==> (expired <==> ToNumber(exp).negative)
    ensures ToNumber(exp).Finite? ==> (expired <==> ToNumber(exp).r * 1000.0 < now as real)
    ensures ToNumber(exp).Finite? && IsInteger(ToNumber(exp)) ==>
      (expired <==> ToNumber(exp).r.Floor * 1000 < now)
  {
    match ToNumber(exp)
    case Finite(r) => r * 1000.0 < now as real
    case Infinity(negative) => negative
    case NaN => false
  }

  /** The decision of `validateToken(token)` at time `now` (milliseconds). */
  function CheckToken(token: Option<string>, parse: string -> Option<Value>, now: int): (c: TokenCheck)
    ensures c == NoToken <==> token.None? || token.value == ""
    ensures c == InvalidToken <==> token.Some? && token.value != "" && !Truthy(DecodeToken(token.value, parse))
    ensures c == ExpiredToken <==>
      && token.Some? && token.value != "" && Truthy(DecodeToken(token.value, parse))
      && var exp := Get(DecodeToken(token.value, parse), "exp");
         Truthy(exp) && ExpiredBefore(exp, now)
    ensures c.ValidToken? ==>
      && c.userData == DecodeToken(token.value, parse) && Truthy(c.userData)
      && !(Truthy(Get(c.userData, "exp")) && ExpiredBefore(Get(c.userData, "exp"), now))
  {
    if token.None? || token.value == "" then NoToken
    else
      var userData := DecodeToken(token.value, parse);
      if !Truthy(userData) then InvalidToken
      else if Truthy(Get(userData, "exp")) && ExpiredBefore(Get(userData, "exp"), now) then ExpiredToken
      else ValidToken(userData)
  }

  /** A payload without `exp` never expires. */
  lemma NoExpiryWithoutExp(token: string, parse: string -> Option<Value>, now: int)
    requires token != "" && Truthy(DecodeToken(token, parse)) && Get(DecodeToken(token, parse), "exp") == Undefined
    ensures CheckToken(Some(token), parse, now) == ValidToken(DecodeToken(token, parse))
  {
  }

  /** An `exp` in seconds before `now` expires the link; one at or after it
      does not. */
  lemma ExpiryGate(token: string, parse: string -> Option<Value>, exp: int, now: int)
    requires token != "" && exp != 0
    requires DecodeToken(token, parse).Obj? && Get(DecodeToken(token, parse), "exp") == Num(Finite(exp as real))
    ensures exp * 1000 < now ==> CheckToken(Some(token), parse, now) == ExpiredToken
    ensures exp * 1000 >= now ==> CheckToken(Some(token), parse, now).ValidToken?
  {
  }

  /** The message `validateToken` shows for a rejected token. */
  function TokenMessage(c: TokenCheck): string {
    match c
    case NoToken => NoTokenMessage
    case InvalidToken => InvalidTokenMessage
    case ExpiredToken => ExpiredMessage
    case ValidToken(_) => ""
  }

  // ---------------------------------------------------------------------------
  // Requests and responses

  function ActionName(action: Action): string {
    if action == Approve then "approve" else "reject"
  }

  /** The body `callApproveApi(token, action, reason)` sends. */
  function ApproveBody(token: string, action: Action, reason: Value): (body: map<string, Value>)
    ensures body.Keys == {"token", "action"} + (if Truthy(reason) then {"reason"} else {})
    ensures body["token"] == Str(token) && body["action"] == Str(ActionName(action))
    ensures "reason" in body ==> body["reason"] == reason
  {
    var body := map["token" := Str(token), "action" := Str(ActionName(action))];
    if Truthy(reason) then body["reason" := reason] else body
  }

  /** The success message of `handleAction`. */
  function ActionDoneMessage(action: Action): string {
    "ระบบได้บันทึกผลการ" + (if action == Approve then "อนุมัติ" else "ปฏิเสธ") + "เรียบร้อยแล้ว"
  }

  /** What `handleStatusResponse` leads to. A TypeError is thrown when a
      successful response has null data, when an already-registered answer
      has no user data, or when masking the ID card throws. */
  datatype StatusOutcome = ShowsAction | ShowsApproved | ShowsError(message: Value) | Throws

  /** `statusResponse.data.data || statusResponse.data` */
  function ResponseData(res: ApiResult): Value {
    Or(Get(res.data, "data"), res.data)
  }

  function StatusOutcomeOf(res: ApiResult, userData: Value): (o: StatusOutcome)
    ensures o.ShowsError? <==> !res.ok
    ensures o.ShowsError? ==> o.message == Or(ErrorOf(res), Str(StatusCheckFailedMessage)) && Truthy(o.message)
    ensures o == ShowsAction <==>
      res.ok && !Nullish(res.data) && !Truthy(Get(ResponseData(res), "isRegistered")) && MaskIDCard(Get(userData, "IDCard")).Some?
    ensures o == ShowsApproved <==>
      && res.ok && !Nullish(res.data) && Truthy(Get(ResponseData(res), "isRegistered"))
      && var registered := Get(ResponseData(res), "userData");
         !Nullish(registered) && MaskIDCard(Get(registered, "IDCard")).Some?
    ensures o == Throws <==>
      && res.ok
      && (|| Nullish(res.data)
          || (Truthy(Get(ResponseData(res), "isRegistered")) &&
                var registered := Get(ResponseData(res), "userData");
                Nullish(registered) || MaskIDCard(Get(registered, "IDCard")).None?)
          || (!Truthy(Get(ResponseData(res), "isRegistered")) && MaskIDCard(Get(userData, "IDCard")).None?))
  {
    if !res.ok then ShowsError(Or(ErrorOf(res), Str(StatusCheckFailedMessage)))
    else if Nullish(res.data) then Throws
    else
      var responseData := ResponseData(res);
      if Truthy(Get(responseData, "isRegistered")) then
        var registered := Get(responseData, "userData");
        if Nullish(registered) || MaskIDCard(Get(registered, "IDCard")).None? then Throws else ShowsApproved
      else if MaskIDCard(Get(userData, "IDCard")).None? then Throws
      else ShowsAction
  }

  // ---------------------------------------------------------------------------
  // The page

  datatype State = Initial | Loading | ActionReady | AlreadyApproved | Succeeded | Failed

  /** The texts of the three user-detail elements. */
  datatype UserInfo = UserInfo(name: string, idCard: string, startDate: string)

  /** What the result panel shows, before its texts are escaped. */
  datatype ResultView =
    | NoResult
    | SuccessView(title: string, message: string, autoCloseSeconds: int)
    | ApprovedView(name: Value, idCard: Value, startDate: Value)
    | ErrorView(error: Value)

  /** The user details `showActionPage(userData)` writes, given the masked
      ID card. */
  function ActionInfo(userData: Value, masked: Value, format: Value -> string): UserInfo {
    UserInfo(ToStr(Or(Get(userData, "name"), Str("-"))), ToStr(Or(masked, Str("-"))), StartDateText(Get(userData, "start_date"), format))
  }

  /** The notice `showAlreadyApproved(userData)` writes, given the masked
      ID card. */
  function ApprovedViewOf(userData: Value, masked: Value, format: Value -> string): ResultView {
    ApprovedView(Or(Get(userData, "name"), Str("-")), Or(masked, Str("-")), Str(StartDateText(Get(userData, "start_date"), format)))
  }

  /** The texts interpolated into the result panel's markup through
      `escapeHtml`, in order; none carries raw markup, and unescaping gives
      back the title and message, the three user details, or the error
      (a falsy value shows as nothing). */
  function Markup(view: ResultView): (texts: seq<string>)
    ensures forall i | 0 <= i < |texts| :: HtmlEscape.NoRawMarkup(texts[i])
    ensures |texts| == match view case NoResult => 0 case SuccessView(_, _, _) => 2 case ApprovedView(_, _, _) => 3 case ErrorView(_) => 1
    ensures view.SuccessView? ==>
      HtmlEscape.Unescape(texts[0], AposEntity) == view.title && HtmlEscape.Unescape(texts[1], AposEntity) == view.message
    ensures view.ApprovedView? ==>
      && HtmlEscape.Unescape(texts[0], AposEntity) == (if Truthy(view.name) then ToStr(view.name) else "")
      && HtmlEscape.Unescape(texts[1], AposEntity) == (if Truthy(view.idCard) then ToStr(view.idCard) else "")
      && HtmlEscape.Unescape(texts[2], AposEntity) == (if Truthy(view.startDate) then ToStr(view.startDate) else "")
    ensures view.ErrorView? ==>
      HtmlEscape.Unescape(texts[0], AposEntity) == (if Truthy(view.error) then ToStr(view.error) else "")
  {
    match view
    case NoResult => []
    case SuccessView(title, message, _) => [EscapeHtml(Str(title)), EscapeHtml(Str(message))]
    case ApprovedView(name, idCard, startDate) => [EscapeHtml(name), EscapeHtml(idCard), EscapeHtml(startDate)]
    case ErrorView(error) => [EscapeHtml(error)]
  }

  class Page {
    var state: State
    var panels: Panels
    var mainTitle: string
    var subtitle: string
    var info: UserInfo
    var result: ResultView
    var buttonsDisabled: bool
    /** Delays of the window closes scheduled so far. */
    var closeTimers: seq<int>
    var statusRequested: bool
    var listenersAdded: bool
    /** Bodies of the approve calls made so far. */
    var approveRequests: seq<map<string, Value>>

    /** Each state shows its own panels. */
    predicate PanelsMatchState()
      reads this
    {
      match state
      case Initial => true
      case Loading => panels.loading && !panels.buttons && !panels.result
      case ActionReady => !panels.loading && panels.buttons && panels.info && !panels.result
      case AlreadyApproved => panels == ResultOnly && result.ApprovedView?
      case Succeeded => panels == ResultOnly && result.SuccessView?
      case Failed => panels == ResultOnly && result.ErrorView?
    }

    constructor()
      ensures state == Initial && PanelsMatchState()
      ensures closeTimers == [] && approveRequests == [] && !statusRequested && !listenersAdded && !buttonsDisabled
    {
      state := Initial;
      panels := Panels(false, false, false, false, true);
      mainTitle, subtitle := "", "";
      info := UserInfo("", "", "");
      result := NoResult;
      buttonsDisabled := false;
      closeTimers, approveRequests := [], [];
      statusRequested, listenersAdded := false, false;
    }

    /** `showLoading()` */
    method ShowLoading()
      modifies this
      ensures state == Loading && PanelsMatchState()
      ensures panels == Panels(true, false, false, false, old(panels.subtitle))
      ensures mainTitle == LoadingTitle && subtitle == LoadingSubtitle
      ensures unchanged(this`info, this`result, this`buttonsDisabled, this`closeTimers)
      ensures unchanged(this`statusRequested, this`listenersAdded, this`approveRequests)
    {
      panels := Panels(true, false, false, false, panels.subtitle);
      mainTitle, subtitle := LoadingTitle, LoadingSubtitle;
      state := Loading;
    }

    /** `showError(message)`; this page's error does not close the window. */
    method ShowError(message: Value)
      modifies this
      ensures state == Failed && PanelsMatchState()
      ensures result == ErrorView(message) && mainTitle == FailedTitle
      ensures unchanged(this`subtitle, this`info, this`buttonsDisabled, this`closeTimers)
      ensures unchanged(this`statusRequested, this`listenersAdded, this`approveRequests)
    {
      panels := ResultOnly;
      mainTitle := FailedTitle;
      result := ErrorView(message);
      state := Failed;
    }

    /** `showSuccess(title, message, autoCloseSeconds)`: the window closes
        only for a positive number of seconds. */
    method ShowSuccess(title: string, message: string, autoCloseSeconds: int)
      modifies this
      ensures state == Succeeded && PanelsMatchState()
      ensures result == SuccessView(title, message, autoCloseSeconds) && mainTitle == SuccessTitle
      ensures closeTimers == old(closeTimers) + (if autoCloseSeconds > 0 then [autoCloseSeconds * 1000] else [])
      ensures unchanged(this`subtitle, this`info, this`buttonsDisabled)
      ensures unchanged(this`statusRequested, this`listenersAdded, this`approveRequests)
    {
      panels := ResultOnly;
      mainTitle := SuccessTitle;
      result := SuccessView(title, message, autoCloseSeconds);
      if autoCloseSeconds > 0 {
        closeTimers := closeTimers + [autoCloseSeconds * 1000];
      }
      state := Succeeded;
    }

    /** `showAlreadyApproved(userData)`; `threw` when reading the user data
        throws, which happens after the panels and title have changed and
        before the notice is written. */
    method ShowAlreadyApproved(userData: Value, format: Value -> string) returns (threw: bool)
      modifies this
      ensures threw <==> Nullish(userData) || MaskIDCard(Get(userData, "IDCard")).None?
      ensures !threw ==>
        && state == AlreadyApproved && PanelsMatchState()
        && result == ApprovedViewOf(userData, MaskIDCard(Get(userData, "IDCard")).value, format)
        && closeTimers == old(closeTimers) + [AlreadyApprovedCloseDelay]
        && mainTitle == AlreadyApprovedTitle
      ensures threw ==> closeTimers == old(closeTimers) && result == old(result)
      ensures unchanged(this`subtitle, this`info, this`buttonsDisabled)
      ensures unchanged(this`statusRequested, this`listenersAdded, this`approveRequests)
    {
      panels := ResultOnly;
      mainTitle := AlreadyApprovedTitle;
      if Nullish(userData) {
        return true;
      }
      var masked := MaskIDCard(Get(userData, "IDCard"));
      if masked.None? {
        return true;
      }
      result := ApprovedViewOf(userData, masked.value, format);
      closeTimers := closeTimers + [AlreadyApprovedCloseDelay];
      state := AlreadyApproved;
      threw := false;
    }

    /** `showActionPage(userData)`; `threw` when masking the ID card throws,
        after the name has been written. */
    method ShowActionPage(userData: Value, format: Value -> string) returns (threw: bool)
      modifies this
      ensures threw <==> MaskIDCard(Get(userData, "IDCard")).None?
      ensures !threw ==>
        && state == ActionReady && PanelsMatchState()
        && info == ActionInfo(userData, MaskIDCard(Get(userData, "IDCard")).value, format)
        && mainTitle == ReviewTitle && subtitle == ReviewSubtitle
      ensures unchanged(this`result, this`buttonsDisabled, this`closeTimers)
      ensures unchanged(this`statusRequested, this`listenersAdded, this`approveRequests)
    {
      panels := panels.(loading := false, result := false, info := true, buttons := true);
      mainTitle, subtitle := ReviewTitle, ReviewSubtitle;
      var shown := info.(name := ToStr(Or(Get(userData, "name"), Str("-"))));
      info := shown;
      var masked := MaskIDCard(Get(userData, "IDCard"));
      if masked.None? {
        return true;
      }
      info := shown.(idCard := ToStr(Or(masked.value, Str("-"))), startDate := StartDateText(Get(userData, "start_date"), format));
      state := ActionReady;
      threw := false;
    }

    /** `setButtonsDisabled(disabled)` */
    method SetButtonsDisabled(disabled: bool)
      modifies this`buttonsDisabled
      ensures buttonsDisabled == disabled
    {
      buttonsDisabled := disabled;
    }

    /** `validateToken(token)`: the payload of an acceptable token, or null
        after reporting why the token was refused. */
    method ValidateToken(token: Option<string>, parse: string -> Option<Value>, now: int) returns (userData: Value)
      modifies this
      ensures var c := CheckToken(token, parse, now);
        && (c.ValidToken? ==> userData == c.userData && unchanged(this))
        && (!c.ValidToken? ==> userData == Null && state == Failed && PanelsMatchState() && result == ErrorView(Str(TokenMessage(c))))
      ensures unchanged(this`statusRequested, this`listenersAdded, this`approveRequests)
      ensures unchanged(this`closeTimers, this`buttonsDisabled)
    {
      var c := CheckToken(token, parse, now);
      if c.ValidToken? {
        return c.userData;
      }
      ShowError(Str(TokenMessage(c)));
      userData := Null;
    }

    /** `handleStatusResponse(statusResponse, userData)`; `threw` when it
        throws a TypeError, which `init` reports as a connection failure. */
    method HandleStatusResponse(res: ApiResult, userData: Value, format: Value -> string) returns (threw: bool)
      modifies this
      ensures var o := StatusOutcomeOf(res, userData);
        && (threw <==> o == Throws)
        && (o == ShowsAction ==>
              && state == ActionReady && PanelsMatchState() && listenersAdded
              && info == ActionInfo(userData, MaskIDCard(Get(userData, "IDCard")).value, format)
              && mainTitle == ReviewTitle && subtitle == ReviewSubtitle
              && closeTimers == old(closeTimers) && result == old(result))
        && (o == ShowsApproved ==>
              var registered := Get(ResponseData(res), "userData");
              && state == AlreadyApproved && PanelsMatchState() && listenersAdded == old(listenersAdded)
              && result == ApprovedViewOf(registered, MaskIDCard(Get(registered, "IDCard")).value, format)
              && mainTitle == AlreadyApprovedTitle
              && closeTimers == old(closeTimers) + [AlreadyApprovedCloseDelay])
        && (o.ShowsError? ==>
              && state == Failed && PanelsMatchState() && result == ErrorView(o.message) && mainTitle == FailedTitle
              && listenersAdded == old(listenersAdded) && closeTimers == old(closeTimers))
        && (o == Throws ==> listenersAdded == old(listenersAdded) && closeTimers == old(closeTimers))
      ensures unchanged(this`statusRequested, this`approveRequests, this`buttonsDisabled)
    {
      if !res.ok {
        ShowError(Or(ErrorOf(res), Str(StatusCheckFailedMessage)));
        return false;
      }
      if Nullish(res.data) {
        return true;
      }
      var responseData := ResponseData(res);
      if Truthy(Get(responseData, "isRegistered")) {
        threw := ShowAlreadyApproved(Get(responseData, "userData"), format);
      } else {
        threw := ShowActionPage(userData, format);
        if !threw {
          listenersAdded := true;
        }
      }
    }

    /** What the page shows once the status check for the token's
        `userData` has run, given the close delays scheduled before: the
        decision with the user's details, the approved notice that closes
        after 3 s, the status error, or the connection failure when handling
        the response threw. */
    ghost predicate ShowsStatus(res: ApiResult, userData: Value, format: Value -> string, timersBefore: seq<int>)
      reads this`state, this`info, this`result, this`mainTitle, this`subtitle, this`listenersAdded, this`closeTimers
    {
      match StatusOutcomeOf(res, userData)
      case ShowsAction =>
        && state == ActionReady && listenersAdded
        && info == ActionInfo(userData, MaskIDCard(Get(userData, "IDCard")).value, format)
        && mainTitle == ReviewTitle && subtitle == ReviewSubtitle && closeTimers == timersBefore
      case ShowsApproved =>
        var registered := Get(ResponseData(res), "userData");
        && state == AlreadyApproved
        && result == ApprovedViewOf(registered, MaskIDCard(Get(registered, "IDCard")).value, format)
        && mainTitle == AlreadyApprovedTitle && closeTimers == timersBefore + [AlreadyApprovedCloseDelay]
      case ShowsError(message) =>
        && state == Failed && result == ErrorView(message) && mainTitle == FailedTitle && closeTimers == timersBefore
      case Throws =>
        && state == Failed && result == ErrorView(Str(ConnectionFailedMessage)) && mainTitle == FailedTitle
        && closeTimers == timersBefore
    }

    /** `init()`: a refused token stops the page before any request; an
        accepted one leads to the status check and its outcome. */
    method Init(configThrows: bool, token: Option<string>, parse: string -> Option<Value>, now: int, res: ApiResult, format: Value -> string)
      modifies this
      ensures PanelsMatchState()
      ensures var c := CheckToken(token, parse, now);
        && (!c.ValidToken? ==>
              && state == Failed && result == ErrorView(Str(TokenMessage(c)))
              && statusRequested == old(statusRequested) && closeTimers == old(closeTimers))
        && (c.ValidToken? && configThrows ==>
              && state == Failed && result == ErrorView(Str(ConnectionFailedMessage))
              && statusRequested == old(statusRequested) && closeTimers == old(closeTimers))
        && (c.ValidToken? && !configThrows ==> statusRequested && ShowsStatus(res, c.userData, format, old(closeTimers)))
      ensures unchanged(this`approveRequests, this`buttonsDisabled)
    {
      var userData := ValidateToken(token, parse, now);
      if !Truthy(userData) {
        return;
      }
      ShowLoading();
      mainTitle, subtitle := CheckingTitle, LoadingSubtitle;
      CheckStatus(configThrows, userData, res, format);
    }

    /** The `try` block of `init` and its `catch`: the status request and
        the handling of its response. `configThrows` when
        `getRuntimeConfig()` throws inside `callCheckStatusApi`, before the
        request is sent; like a throw while handling the response, it ends
        in the connection-failure message. */
    method CheckStatus(configThrows: bool, userData: Value, res: ApiResult, format: Value -> string)
      modifies this
      ensures PanelsMatchState()
      ensures configThrows ==>
        && state == Failed && result == ErrorView(Str(ConnectionFailedMessage))
        && statusRequested == old(statusRequested) && closeTimers == old(closeTimers)
      ensures !configThrows ==> statusRequested && ShowsStatus(res, userData, format, old(closeTimers))
      ensures unchanged(this`approveRequests, this`buttonsDisabled)
    {
      if configThrows {
        ShowError(Str(ConnectionFailedMessage));
        return;
      }
      statusRequested := true;
      var threw := HandleStatusResponse(res, userData, format);
      if threw {
        ShowError(Str(ConnectionFailedMessage));
      }
    }

    /** `handleAction(action)` given the API result: without a token nothing
        is sent; otherwise the buttons are disabled for good and the page
        ends in success or in an error, never back at the decision. */
    method HandleAction(token: Option<string>, action: Action, res: ApiResult)
      modifies this
      ensures PanelsMatchState()
      ensures token.None? || token.value == "" ==>
        && state == Failed && result == ErrorView(Str(NoTokenMessage))
        && unchanged(this`approveRequests, this`buttonsDisabled)
      ensures token.Some? && token.value != "" ==>
        && approveRequests == old(approveRequests) + [ApproveBody(token.value, action, Null)]
        && buttonsDisabled
        && (res.ok ==> state == Succeeded && result == SuccessView(ActionDoneTitle, ActionDoneMessage(action), DefaultAutoCloseSeconds))
        && (res.ok ==> closeTimers == old(closeTimers) + [DefaultAutoCloseSeconds * 1000])
        && (!res.ok ==> state == Failed && result == ErrorView(Or(ErrorOf(res), Str(ActionFailedMessage))))
      ensures (token.None? || token.value == "" || !res.ok) ==> closeTimers == old(closeTimers)
      ensures state in {Succeeded, Failed}
      ensures unchanged(this`statusRequested, this`listenersAdded)
    {
      if token.None? || token.value == "" {
        ShowError(Str(NoTokenMessage));
        return;
      }
      ShowLoading();
      SetButtonsDisabled(true);
      approveRequests := approveRequests + [ApproveBody(token.value, action, Null)];
      if res.ok {
        ShowSuccess(ActionDoneTitle, ActionDoneMessage(action), DefaultAutoCloseSeconds);
      } else {
        ShowError(Or(ErrorOf(res), Str(ActionFailedMessage)));
      }
    }
  }

  /** The approve call of `handleAction` never carries a reason. */
  lemma HandleActionSendsNoReason(token: string, action: Action)
    ensures "reason" !in ApproveBody(token, action, Null)
    ensures ApproveBody(token, action, Str("late")).Keys == {"token", "action", "reason"}
  {
  }
}
