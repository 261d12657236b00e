/** Form validation for the registration and forget-time payloads
    (public/assets/js/core/validation.js). Every field is checked on its own
    and the result maps each failing field to its message. */
module Validation {

  import opened Js

  const NameRequired := "กรุณาระบุชื่อ"
  const NameTooShort := "ชื่ออย่างน้อย 3 ตัวอักษร"
  const NameTooLong := "ชื่อไม่เกิน 30 ตัวอักษร"
  const IdCardRequired := "กรุณาระบุหมายเลขบัตรประชาชน"
  const IdCardNotThirteenDigits := "หมายเลขบัตรประชาชนต้องมี 13 หลัก"
  const CompanyIdNotPositiveInteger := "รหัสบริษัทต้องเป็นจำนวนเต็มบวก"
  const StartDateRequired := "กรุณาระบุวันที่เริ่มต้นงาน"
  const StartDateNotIso := "วันที่เริ่มต้นงานต้องเป็นรูปแบบ ISO"
  const TypeRequired := "กรุณาระบุประเภท Timestamp"
  const TypeNotAllowed := "ประเภท Timestamp ไม่ถูกต้อง"
  const DateRequired := "กรุณาระบุวันที่"
  const DateNotIso := "วันที่ต้องเป็นรูปแบบ ISO"
  const TimeRequired := "กรุณาระบุเวลา"
  const TimeBadFormat := "เวลาต้องเป็นรูปแบบ HH:mm หรือ HH:mm:ss"
  const ReasonRequired := "กรุณาระบุเหตุผล"
  const ReasonTooLong := "เหตุผลต้องไม่เกิน 500 ตัวอักษร"
  const EvidenceTooLong := "หลักฐานยาวเกินไป"

  const AllowedTypes: set<string> := {"work_in", "break_in", "ot_in", "work_out", "break_out", "ot_out"}

  const RegisterFields: set<string> := {"name", "IDCard", "companyId", "start_date"}
  const ForgetTimeFields: set<string> := {"timestamp_type", "date", "time", "reason", "evidence"}

  /** The properties of a registration payload the validator reads. */
  datatype RegisterPayload = RegisterPayload(name: Value, idCard: Value, companyId: Value, startDate: Value)

  /** The properties of a forget-time payload the validator reads. */
  datatype ForgetTimePayload =
    ForgetTimePayload(timestampType: Value, date: Value, time: Value, reason: Value, evidence: Value)

  /** `String(v || "").trim()` */
  function FieldText(v: Value): string {
    Trim(ToStr(Or(v, Str(""))))
  }

  // ---------------------------------------------------------------------------
  // TIME_REGEX = /^([01]?\d|2[0-3]):[0-5]\d(:[0-5]\d)?$/

  /** `([01]?\d|2[0-3])` matched against the whole of `h`. */
  predicate HourAlternative(h: string) {
    || (|h| == 1 && IsDigit(h[0]))
    || (|h| == 2 && (h[0] == '0' || h[0] == '1') && IsDigit(h[1]))
    || (|h| == 2 && h[0] == '2' && '0' <= h[1] <= '3')
  }

  /** `[0-5]\d` matched against the whole of `m`. */
  predicate SexagesimalPair(m: string) {
    |m| == 2 && '0' <= m[0] <= '5' && IsDigit(m[1])
  }

  /** The pattern with the hour alternative taking the first `h` characters. */
  predicate MatchesTimeRegexAt(t: string, h: nat) {
    && h + 3 <= |t|
    && HourAlternative(t[..h]) && t[h] == ':' && SexagesimalPair(t[h + 1..h + 3])
    && (|t| == h + 3 || (|t| == h + 6 && t[h + 3] == ':' && SexagesimalPair(t[h + 4..])))
  }

  /** `TIME_REGEX.test(t)`: the hour alternative matches one or two characters. */
  predicate MatchesTimeRegex(t: string) {
    MatchesTimeRegexAt(t, 1) || MatchesTimeRegexAt(t, 2)
  }

  /** A run of decimal digits whose value is at most `max`. */
  predicate NumericField(s: string, max: nat) {
    s != [] && AllDigits(s) && DigitsValue(s) <= max
  }

  /** Reference reading: an hour of one or two digits up to 23, ':', minutes
      of two digits up to 59, optionally ':' and seconds of two digits up to 59. */
  predicate IsClockTimeAt(t: string, h: nat) {
    && (h == 1 || h == 2) && h + 3 <= |t|
    && NumericField(t[..h], 23) && t[h] == ':'
    && |t[h + 1..h + 3]| == 2 && NumericField(t[h + 1..h + 3], 59)
    && (|t| == h + 3 || (|t| == h + 6 && t[h + 3] == ':' && NumericField(t[h + 4..], 59)))
  }

  predicate IsClockTime(t: string) {
    IsClockTimeAt(t, 1) || IsClockTimeAt(t, 2)
  }

  lemma TwoDigitValue(s: string)
    requires |s| == 2 && AllDigits(s)
    ensures DigitsValue(s) == 10 * DigitValue(s[0]) + DigitValue(s[1])
  {
    assert s[..1][..0] == [];
    assert DigitsValue(s[..1]) == DigitValue(s[0]);
  }

  lemma OneDigitValue(s: string)
    requires |s| == 1 && AllDigits(s)
    ensures DigitsValue(s) == DigitValue(s[0])
  {
    assert s[..0] == [];
  }

  /** The hour alternative accepts exactly the one- or two-digit hours 0..23. */
  lemma HourAlternativeMeaning(h: string)
    ensures HourAlternative(h) <==> (1 <= |h| <= 2 && NumericField(h, 23))
  {
    if |h| == 1 && AllDigits(h) {
      OneDigitValue(h);
    } else if |h| == 2 && AllDigits(h) {
      TwoDigitValue(h);
    }
  }

  /** `[0-5]\d` accepts exactly the two-digit values 00..59. */
  lemma SexagesimalPairMeaning(m: string)
    ensures SexagesimalPair(m) <==> (|m| == 2 && NumericField(m, 59))
  {
    if |m| == 2 && AllDigits(m) {
      TwoDigitValue(m);
    }
  }

  lemma {:induction false} TimeRegexAtMeaning(t: string, h: nat)
    requires h == 1 || h == 2
    ensures MatchesTimeRegexAt(t, h) <==> IsClockTimeAt(t, h)
  {
    if h + 3 <= |t| {
      HourAlternativeMeaning(t[..h]);
      SexagesimalPairMeaning(t[h + 1..h + 3]);
      if h + 4 <= |t| {
        SexagesimalPairMeaning(t[h + 4..]);
      }
    }
  }

  /** TIME_REGEX accepts a trimmed time iff it is a clock time: hour 0..23 in
      one or two digits, minutes 00..59, optional seconds 00..59. */
  lemma TimeRegexMeaning(t: string)
    ensures MatchesTimeRegex(t) <==> IsClockTime(t)
  {
    TimeRegexAtMeaning(t, 1);
    TimeRegexAtMeaning(t, 2);
  }

  // ---------------------------------------------------------------------------
  // isIsoDate

  /** `/^\d{4}-\d{2}-\d{2}$/`: ten characters, '-' at positions 4 and 7
      and a decimal digit everywhere else. */
  function IsoDateShape(s: string): (shaped: bool)
    ensures shaped <==> |s| == 10 && forall i | 0 <= i < 10 :: if i == 4 || i == 7 then s[i] == '-' else IsDigit(s[i])
  {
    && |s| == 10 && s[4] == '-' && s[7] == '-'
    && AllDigits(s[..4]) && AllDigits(s[5..7]) && AllDigits(s[8..])
  }

  /** `isIsoDate(value)`; `dateParses(v)` stands for `!Number.isNaN(Date.parse(v))`,
      which is not part of this model. */
  function IsIsoDate(value: string, dateParses: string -> bool): (ok: bool)
    ensures value == "" ==> !ok
    ensures IsoDateShape(value) ==> ok
    ensures value != "" && !IsoDateShape(value) ==> ok == dateParses(value)
  {
    if value == "" then false
    else if IsoDateShape(value) then true
    else dateParses(value)
  }

  /** The shape test checks digits only, not the calendar: February 30th is
      accepted whatever `Date.parse` would say. */
  lemma IsIsoDateIgnoresCalendar(dateParses: string -> bool)
    ensures IsIsoDate("2024-02-30", dateParses)
  {
    assert IsoDateShape("2024-02-30");
  }

  // ---------------------------------------------------------------------------
  // Field rules: the message a field gets, or None when it passes

  function NameRule(v: Value): (m: Option<string>)
    ensures m == Some(NameRequired) <==> FieldText(v) == ""
    ensures m.Some? <==> !(3 <= Utf16Length(FieldText(v)) <= 30)
    ensures m == Some(NameTooShort) <==> FieldText(v) != "" && Utf16Length(FieldText(v)) < 3
    ensures m == Some(NameTooLong) <==> Utf16Length(FieldText(v)) > 30
  {
    var name := FieldText(v);
    if name == "" then Some(NameRequired)
    else if Utf16Length(name) < 3 then Some(NameTooShort)
    else if Utf16Length(name) > 30 then Some(NameTooLong)
    else None
  }

  /** `/^\d{13}$/` */
  predicate IsThirteenDigits(s: string) {
    |s| == 13 && AllDigits(s)
  }

  function IdCardRule(v: Value): (m: Option<string>)
    ensures m.Some? <==> !IsThirteenDigits(FieldText(v))
    ensures m == Some(IdCardRequired) <==> FieldText(v) == ""
    ensures m == Some(IdCardNotThirteenDigits) <==> FieldText(v) != "" && !IsThirteenDigits(FieldText(v))
  {
    var idCard := FieldText(v);
    if idCard == "" then Some(IdCardRequired)
    else if !IsThirteenDigits(idCard) then Some(IdCardNotThirteenDigits)
    else None
  }

  /** `Number.isInteger(n) && n > 0` */
  predicate IsPositiveInteger(n: Number) {
    IsInteger(n) && n.r > 0.0
  }

  function CompanyIdRule(v: Value): (m: Option<string>)
    ensures m.Some? <==> !IsPositiveInteger(ToNumber(v))
    ensures m.Some? ==> m.value == CompanyIdNotPositiveInteger
  {
    var n := ToNumber(v);
    if !IsInteger(n) || n.r <= 0.0 then Some(CompanyIdNotPositiveInteger) else None
  }

  /** The rule shared by `start_date` and `date`: required, then ISO-shaped. */
  function DateRule(v: Value, dateParses: string -> bool, required: string, notIso: string): (m: Option<string>)
    ensures m.Some? <==> !IsIsoDate(FieldText(v), dateParses)
    ensures FieldText(v) == "" ==> m == Some(required)
    ensures FieldText(v) != "" && !IsIsoDate(FieldText(v), dateParses) ==> m == Some(notIso)
  {
    var date := FieldText(v);
    if date == "" then Some(required)
    else if !IsIsoDate(date, dateParses) then Some(notIso)
    else None
  }

  function TypeRule(v: Value): (m: Option<string>)
    ensures m.Some? <==> FieldText(v) !in AllowedTypes
    ensures m == Some(TypeRequired) <==> FieldText(v) == ""
    ensures m == Some(TypeNotAllowed) <==> FieldText(v) != "" && FieldText(v) !in AllowedTypes
  {
    var t := FieldText(v);
    if t == "" then Some(TypeRequired)
    else if t !in AllowedTypes then Some(TypeNotAllowed)
    else None
  }

  function TimeRule(v: Value): (m: Option<string>)
    ensures m.Some? <==> !IsClockTime(FieldText(v))
    ensures m == Some(TimeRequired) <==> FieldText(v) == ""
    ensures m == Some(TimeBadFormat) <==> FieldText(v) != "" && !IsClockTime(FieldText(v))
  {
    var time := FieldText(v);
    TimeRegexMeaning(time);
    if time == "" then Some(TimeRequired)
    else if !MatchesTimeRegex(time) then Some(TimeBadFormat)
    else None
  }

  function ReasonRule(v: Value): (m: Option<string>)
    ensures m.Some? <==> FieldText(v) == "" || Utf16Length(FieldText(v)) > 500
    ensures m == Some(ReasonRequired) <==> FieldText(v) == ""
    ensures m == Some(ReasonTooLong) <==> Utf16Length(FieldText(v)) > 500
  {
    var reason := FieldText(v);
    if reason == "" then Some(ReasonRequired)
    else if Utf16Length(reason) > 500 then Some(ReasonTooLong)
    else None
  }

  /** null and undefined never fail; anything else fails iff its string form
      is longer than 65535 code units. */
  function EvidenceRule(v: Value): (m: Option<string>)
    ensures Nullish(v) ==> m == None
    ensures !Nullish(v) ==> (m.Some? <==> Utf16Length(ToStr(v)) > 65535)
  {
    if !Nullish(v) && Utf16Length(ToStr(v)) > 65535 then Some(EvidenceTooLong) else None
  }

  // ---------------------------------------------------------------------------
  // The error maps

  /** The failing fields of `rules`, each with its message. */
  function Failing(rules: map<string, Option<string>>): map<string, string> {
    map f | f in rules && rules[f].Some? :: rules[f].value
  }

  /** Records the message of one field when its rule fails. */
  function Record(errors: map<string, string>, field: string, m: Option<string>): map<string, string> {
    if m.Some? then errors[field := m.value] else errors
  }

  /** Checking one more field adds it to the failing fields iff its rule fails. */
  lemma FailingStep(rules: map<string, Option<string>>, k: string, m: Option<string>)
    requires k !in rules
    ensures Failing(rules[k := m]) == Record(Failing(rules), k, m)
  {
  }

  /** No field fails iff every rule passes. */
  lemma FailingEmptyIff(rules: map<string, Option<string>>)
    ensures |Failing(rules)| == 0 <==> forall f | f in rules :: rules[f].None?
  {
    assert forall f | f in rules && rules[f].Some? :: f in Failing(rules);
    if |Failing(rules)| != 0 {
      var f :| f in Failing(rules);
    }
  }

  lemma FailingEmptyOfFour(k1: string, k2: string, k3: string, k4: string,
                           m1: Option<string>, m2: Option<string>, m3: Option<string>, m4: Option<string>)
    requires k1 != k2 && k1 != k3 && k1 != k4 && k2 != k3 && k2 != k4 && k3 != k4
    ensures |Failing(map[k1 := m1, k2 := m2, k3 := m3, k4 := m4])| == 0
        <==> m1.None? && m2.None? && m3.None? && m4.None?
  {
    var rules := map[k1 := m1, k2 := m2, k3 := m3, k4 := m4];
    FailingEmptyIff(rules);
    assert rules.Keys == {k1, k2, k3, k4};
  }

  lemma FailingEmptyOfFive(k1: string, k2: string, k3: string, k4: string, k5: string,
                           m1: Option<string>, m2: Option<string>, m3: Option<string>, m4: Option<string>, m5: Option<string>)
    requires k1 != k2 && k1 != k3 && k1 != k4 && k1 != k5 && k2 != k3 && k2 != k4 && k2 != k5
    requires k3 != k4 && k3 != k5 && k4 != k5
    ensures |Failing(map[k1 := m1, k2 := m2, k3 := m3, k4 := m4, k5 := m5])| == 0
        <==> m1.None? && m2.None? && m3.None? && m4.None? && m5.None?
  {
    var rules := map[k1 := m1, k2 := m2, k3 := m3, k4 := m4, k5 := m5];
    FailingEmptyIff(rules);
    assert rules.Keys == {k1, k2, k3, k4, k5};
  }

  /** Recording four distinct fields one after the other yields the failing fields. */
  lemma FailingOfFour(k1: string, k2: string, k3: string, k4: string,
                      m1: Option<string>, m2: Option<string>, m3: Option<string>, m4: Option<string>)
    requires k1 != k2 && k1 != k3 && k1 != k4 && k2 != k3 && k2 != k4 && k3 != k4
    ensures Record(Record(Record(Record(map[], k1, m1), k2, m2), k3, m3), k4, m4)
         == Failing(map[k1 := m1, k2 := m2, k3 := m3, k4 := m4])
  {
    var r0: map<string, Option<string>> := map[];
    assert Failing(r0) == map[];
    FailingStep(r0, k1, m1);
    FailingStep(r0[k1 := m1], k2, m2);
    FailingStep(r0[k1 := m1][k2 := m2], k3, m3);
    FailingStep(r0[k1 := m1][k2 := m2][k3 := m3], k4, m4);
  }

  /** The same for five fields. */
  lemma FailingOfFive(k1: string, k2: string, k3: string, k4: string, k5: string,
                      m1: Option<string>, m2: Option<string>, m3: Option<string>, m4: Option<string>, m5: Option<string>)
    requires k1 != k2 && k1 != k3 && k1 != k4 && k1 != k5 && k2 != k3 && k2 != k4 && k2 != k5
    requires k3 != k4 && k3 != k5 && k4 != k5
    ensures Record(Record(Record(Record(Record(map[], k1, m1), k2, m2), k3, m3), k4, m4), k5, m5)
         == Failing(map[k1 := m1, k2 := m2, k3 := m3, k4 := m4, k5 := m5])
  {
    FailingOfFour(k1, k2, k3, k4, m1, m2, m3, m4);
    FailingStep(map[k1 := m1, k2 := m2, k3 := m3, k4 := m4], k5, m5);
  }

  function RegisterRules(p: RegisterPayload, dateParses: string -> bool): map<string, Option<string>> {
    map[
      "name" := NameRule(p.name),
      "IDCard" := IdCardRule(p.idCard),
      "companyId" := CompanyIdRule(p.companyId),
      "start_date" := DateRule(p.startDate, dateParses, StartDateRequired, StartDateNotIso)]
  }

  /** The specification of `validateRegister`: every failing field, with its message. */
  function RegisterErrors(p: RegisterPayload, dateParses: string -> bool): map<string, string> {
    Failing(RegisterRules(p, dateParses))
  }

  function ForgetTimeRules(p: ForgetTimePayload, dateParses: string -> bool): map<string, Option<string>> {
    map[
      "timestamp_type" := TypeRule(p.timestampType),
      "date" := DateRule(p.date, dateParses, DateRequired, DateNotIso),
      "time" := TimeRule(p.time),
      "reason" := ReasonRule(p.reason),
      "evidence" := EvidenceRule(p.evidence)]
  }

  /** The specification of `validateForgetTime`. */
  function ForgetTimeErrors(p: ForgetTimePayload, dateParses: string -> bool): map<string, string> {
    Failing(ForgetTimeRules(p, dateParses))
  }

  /** `validateRegister(payload)`: each field is checked in turn and, when it
      fails, its message is written into the error object; there is no early exit. */
  method ValidateRegister(p: RegisterPayload, dateParses: string -> bool) returns (errors: map<string, string>)
    ensures errors == RegisterErrors(p, dateParses)
    ensures errors.Keys <= RegisterFields
  {
    errors := map[];
    var nameError := NameRule(p.name);
    if nameError.Some? {
      errors := errors["name" := nameError.value];
    }
    var idCardError := IdCardRule(p.idCard);
    if idCardError.Some? {
      errors := errors["IDCard" := idCardError.value];
    }
    var companyIdError := CompanyIdRule(p.companyId);
    if companyIdError.Some? {
      errors := errors["companyId" := companyIdError.value];
    }
    var startDateError := DateRule(p.startDate, dateParses, StartDateRequired, StartDateNotIso);
    if startDateError.Some? {
      errors := errors["start_date" := startDateError.value];
    }
    FailingOfFour("name", "IDCard", "companyId", "start_date", nameError, idCardError, companyIdError, startDateError);
  }

  /** `validateForgetTime(payload)` */
  method ValidateForgetTime(p: ForgetTimePayload, dateParses: string -> bool) returns (errors: map<string, string>)
    ensures errors == ForgetTimeErrors(p, dateParses)
    ensures errors.Keys <= ForgetTimeFields
  {
    errors := map[];
    var typeError := TypeRule(p.timestampType);
    if typeError.Some? {
      errors := errors["timestamp_type" := typeError.value];
    }
    var dateError := DateRule(p.date, dateParses, DateRequired, DateNotIso);
    if dateError.Some? {
      errors := errors["date" := dateError.value];
    }
    var timeError := TimeRule(p.time);
    if timeError.Some? {
      errors := errors["time" := timeError.value];
    }
    var reasonError := ReasonRule(p.reason);
    if reasonError.Some? {
      errors := errors["reason" := reasonError.value];
    }
    var evidenceError := EvidenceRule(p.evidence);
    if evidenceError.Some? {
      errors := errors["evidence" := evidenceError.value];
    }
    FailingOfFive("timestamp_type", "date", "time", "reason", "evidence",
                  typeError, dateError, timeError, reasonError, evidenceError);
  }

  /** `isEmptyErrors(errors)`; None stands for null or undefined. */
  function IsEmptyErrors(errors: Option<map<string, string>>): (empty: bool)
    ensures empty <==> errors.None? || errors.value.Keys == {}
  {
    errors.None? || |errors.value| == 0
  }

  // ---------------------------------------------------------------------------
  // Consequences

  /** A payload passes iff every one of its field rules passes. */
  lemma RegisterAcceptedIff(p: RegisterPayload, dateParses: string -> bool)
    ensures IsEmptyErrors(Some(RegisterErrors(p, dateParses)))
        <==> && NameRule(p.name).None? && IdCardRule(p.idCard).None?
             && CompanyIdRule(p.companyId).None?
             && DateRule(p.startDate, dateParses, StartDateRequired, StartDateNotIso).None?
  {
    FailingEmptyOfFour("name", "IDCard", "companyId", "start_date",
      NameRule(p.name), IdCardRule(p.idCard), CompanyIdRule(p.companyId),
      DateRule(p.startDate, dateParses, StartDateRequired, StartDateNotIso));
  }

  lemma ForgetTimeAcceptedIff(p: ForgetTimePayload, dateParses: string -> bool)
    ensures IsEmptyErrors(Some(ForgetTimeErrors(p, dateParses)))
        <==> && TypeRule(p.timestampType).None?
             && DateRule(p.date, dateParses, DateRequired, DateNotIso).None?
             && TimeRule(p.time).None? && ReasonRule(p.reason).None? && EvidenceRule(p.evidence).None?
  {
    FailingEmptyOfFive("timestamp_type", "date", "time", "reason", "evidence",
      TypeRule(p.timestampType), DateRule(p.date, dateParses, DateRequired, DateNotIso),
      TimeRule(p.time), ReasonRule(p.reason), EvidenceRule(p.evidence));
  }

  /** Text without surrounding whitespace is read as it is. */
  lemma FieldTextOfUnpadded(s: string)
    requires s != [] ==> !IsWhitespace(s[0]) && !IsWhitespace(s[|s| - 1])
    ensures FieldText(Str(s)) == s
  {
    TrimUnpadded(s);
  }

  /** A company id given as a string of digits passes iff it is not zero
      and small enough not to overflow to Infinity. */
  lemma CompanyIdOfDigits(d: string)
    requires d != [] && AllDigits(d)
    ensures CompanyIdRule(Str(d)).None? <==> 0 < DigitsValue(d) && (DigitsValue(d) as real) < OverflowBound
  {
    StringToNumberOfDigits(d);
  }

  /** An absent, null, empty or zero company id fails. The registration page
      sends the id under a misspelt key, so the validator always sees it absent. */
  lemma CompanyIdAbsentOrZeroFails(v: Value)
    requires v in {Undefined, Null, Num(Finite(0.0)), Str("")}
    ensures CompanyIdRule(v) == Some(CompanyIdNotPositiveInteger)
  {
    assert Trim("") == "";
  }

  /** Too short a name, a three-digit ID, a zero company id and an empty
      start date: all four fields fail, each with its own message. */
  lemma RegisterExample(dateParses: string -> bool)
    ensures RegisterErrors(RegisterPayload(Str("Jo"), Str("123"), Num(Finite(0.0)), Str("")), dateParses)
         == map["name" := NameTooShort, "IDCard" := IdCardNotThirteenDigits,
                "companyId" := CompanyIdNotPositiveInteger, "start_date" := StartDateRequired]
  {
    var p := RegisterPayload(Str("Jo"), Str("123"), Num(Finite(0.0)), Str(""));
    FieldTextOfUnpadded("Jo");
    FieldTextOfUnpadded("123");
    FieldTextOfUnpadded("");
    assert Utf16Length("Jo") == 2;
    FailingOfFour("name", "IDCard", "companyId", "start_date",
                  NameRule(p.name), IdCardRule(p.idCard), CompanyIdRule(p.companyId),
                  DateRule(p.startDate, dateParses, StartDateRequired, StartDateNotIso));
  }

  lemma ForgetTimeExampleRules(dateParses: string -> bool)
    ensures TypeRule(Str("lunch")) == Some(TypeNotAllowed)
    ensures DateRule(Str("2024-02-30"), dateParses, DateRequired, DateNotIso) == None
    ensures TimeRule(Str("25:61")) == Some(TimeBadFormat)
    ensures ReasonRule(Str("")) == Some(ReasonRequired)
  {
    FieldTextOfUnpadded("lunch");
    assert "lunch" !in AllowedTypes;
    FieldTextOfUnpadded("2024-02-30");
    IsIsoDateIgnoresCalendar(dateParses);
    FieldTextOfUnpadded("25:61");
    assert !HourAlternative("25:61"[..2]);
    FieldTextOfUnpadded("");
  }

  /** An unknown type, an out-of-range time and an empty reason fail; the
      calendar-invalid date and the null evidence do not. */
  lemma ForgetTimeExample(dateParses: string -> bool)
    ensures ForgetTimeErrors(ForgetTimePayload(Str("lunch"), Str("2024-02-30"), Str("25:61"), Str(""), Null), dateParses)
         == map["timestamp_type" := TypeNotAllowed, "time" := TimeBadFormat, "reason" := ReasonRequired]
  {
    var p := ForgetTimePayload(Str("lunch"), Str("2024-02-30"), Str("25:61"), Str(""), Null);
    ForgetTimeExampleRules(dateParses);
    FailingOfFive("timestamp_type", "date", "time", "reason", "evidence",
                  TypeRule(p.timestampType), DateRule(p.date, dateParses, DateRequired, DateNotIso),
                  TimeRule(p.time), ReasonRule(p.reason), EvidenceRule(p.evidence));
  }
}
