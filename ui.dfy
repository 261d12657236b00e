/** The shared page helpers (public/assets/js/core/ui.js): HTML and CSS
    escaping, the toast notifications, the submit button's loading state,
    the full-screen loading overlay and the form's field error slots. The
    parts of the document these helpers touch are the fields of a
    `Document`. */
module Ui {

  import opened Js
  import HtmlEscape
  import PageCommon

  /** The entity this file writes for an apostrophe. */
  const AposEntity := "&#039;"

  // ---------------------------------------------------------------------------
  // Escaping

  /** `escapeHtml(value)`: every value is stringified first, so null and
      undefined print as "null" and "undefined". */
  function EscapeHtml(value: Value): (r: string)
    ensures HtmlEscape.NoRawMarkup(r)
    ensures HtmlEscape.Unescape(r, AposEntity) == ToStr(value)
    ensures r == "" <==> ToStr(value) == ""
  {
    var r := HtmlEscape.Escape(ToStr(value), AposEntity);
    assert r == "" ==> ToStr(value) == HtmlEscape.Unescape("", AposEntity);
    r
  }

  /** Unlike the approval pages' escaper, this one has no shortcut for falsy
      values. */
  lemma NoFalsyShortcut()
    ensures EscapeHtml(Null) == "null" && PageCommon.EscapeHtml(Null) == ""
    ensures EscapeHtml(Num(Finite(0.0))) == "0"
  {
    assert HtmlEscape.EscapeEach("null", AposEntity) == "null" by {
      assert "null"[1..] == "ull" && "ull"[1..] == "ll" && "ll"[1..] == "l" && "l"[1..] == "";
    }
    assert NumberToString(Finite(0.0)) == "0" by {
      assert 0.0.Floor == 0;
      assert NatToDecimal(0) == "0";
    }
    assert HtmlEscape.EscapeEach("0", AposEntity) == "0" by {
      assert "0"[1..] == "";
    }
  }

  /** `\"`, what `cssEscape` writes for a double quote. */
  const EscapedQuote := "\\\""

  /** `cssEscape(value)` as written: every '"' becomes `\"`, every other
      character, a backslash included, is kept. */
  function CssEscape(value: Value): (r: string)
    ensures forall i | 0 <= i < |r| && r[i] == '"' :: 0 < i && r[i - 1] == '\\'
    ensures '"' !in ToStr(value) ==> r == ToStr(value)
    ensures '\\' !in ToStr(value) && NoNewline(ToStr(value)) ==> CssString(r + "\"") == Some((ToStr(value), ""))
  {
    var s := ToStr(value);
    var r := HtmlEscape.ReplaceAll(s, '"', EscapedQuote);
    QuotesEscaped(s);
    assert r + "\"" + "" == r + "\"";
    assert '"' !in s ==> r == s by {
      if '"' !in s { HtmlEscape.ReplaceAllAbsent(s, '"', EscapedQuote); }
    }
    assert '\\' !in s && NoNewline(s) ==> CssString(r + "\"") == Some((s, "")) by {
      if '\\' !in s && NoNewline(s) { CssStringOfEscaped(s, ""); }
    }
    r
  }

  predicate IsCssNewline(c: char) {
    c == '\n' || c == '\r' || c == '\U{C}'
  }

  predicate NoNewline(s: string) {
    forall i | 0 <= i < |s| :: !IsCssNewline(s[i])
  }

  /** Reads the body of a CSS string token whose opening '"' has been
      consumed, after section 4.3.5 of CSS Syntax Module Level 3: a backslash
      takes the next character literally, an unescaped '"' closes the string.
      The result is the string's value and the text after the closing quote.
      The end of the text also ends the string, with nothing after it (a
      parse error the tokenizer recovers from), and a backslash just before
      the end is dropped. None for a raw newline, which makes a bad string
      and an invalid selector; escapes of a hex digit or of a newline are
      outside this model and also give None. */
  function CssString(t: string): Option<(string, string)> {
    if t == [] then Some(("", ""))
    else if t[0] == '"' then Some(("", t[1..]))
    else if IsCssNewline(t[0]) then None
    else if t[0] == '\\' then
      if |t| == 1 then Some(("", ""))
      else if IsCssNewline(t[1]) || IsHexDigit(t[1]) then None
      else Prepend(t[1], CssString(t[2..]))
    else Prepend(t[0], CssString(t[1..]))
  }

  function Prepend(c: char, r: Option<(string, string)>): Option<(string, string)> {
    if r.None? then None else Some(([c] + r.value.0, r.value.1))
  }

  /** What both escapes write for one character: a backslash before a
      backslash or a quote, the character alone otherwise. */
  function EscapedChar(c: char): string {
    if c == '\\' || c == '"' then ['\\', c] else [c]
  }

  /** An escaped character is read back as itself. */
  lemma CssStringStep(c: char, e: string, rest: string, value: string)
    requires !IsCssNewline(c)
    requires CssString(e + "\"" + rest) == Some((value, rest))
    ensures CssString(EscapedChar(c) + e + "\"" + rest) == Some(([c] + value, rest))
  {
    var t := EscapedChar(c) + e + "\"" + rest;
    if c == '\\' || c == '"' {
      assert t[0] == '\\' && t[1] == c && t[2..] == e + "\"" + rest;
    } else {
      assert t[0] == c && t[1..] == e + "\"" + rest;
    }
  }

  lemma {:induction false} QuotesEscaped(s: string)
    ensures var r := HtmlEscape.ReplaceAll(s, '"', EscapedQuote);
      && (r != [] ==> r[0] != '"')
      && forall i | 0 <= i < |r| && r[i] == '"' :: 0 < i && r[i - 1] == '\\'
  {
    if s != [] {
      QuotesEscaped(s[1..]);
      var head := if s[0] == '"' then EscapedQuote else [s[0]];
      var tail := HtmlEscape.ReplaceAll(s[1..], '"', EscapedQuote);
      assert HtmlEscape.ReplaceAll(s, '"', EscapedQuote) == head + tail;
      forall i | 0 <= i < |head + tail| && (head + tail)[i] == '"'
        ensures 0 < i && (head + tail)[i - 1] == '\\'
      {
        if i >= |head| {
          assert (head + tail)[i] == tail[i - |head|];
          if i > |head| {
            assert (head + tail)[i - 1] == tail[i - 1 - |head|];
          }
        }
      }
    }
  }

  /** Without a backslash or newline in the key, the escaped key followed by
      the selector's closing quote reads back as the key. */
  lemma {:induction false} CssStringOfEscaped(s: string, rest: string)
    requires '\\' !in s && NoNewline(s)
    ensures CssString(HtmlEscape.ReplaceAll(s, '"', EscapedQuote) + "\"" + rest) == Some((s, rest))
  {
    if s == [] {
      assert HtmlEscape.ReplaceAll(s, '"', EscapedQuote) + "\"" + rest == "\"" + rest;
    } else {
      assert s[0] in s && '\\' !in s[1..];
      CssStringOfEscaped(s[1..], rest);
      var e := HtmlEscape.ReplaceAll(s[1..], '"', EscapedQuote);
      assert HtmlEscape.ReplaceAll(s, '"', EscapedQuote) == EscapedChar(s[0]) + e;
      CssStringStep(s[0], e, rest, s[1..]);
      assert [s[0]] + s[1..] == s;
    }
  }

  /** A key ending in a backslash: the escaped key swallows the selector's
      closing quote, so the string runs to the end of the selector and is
      read as `a"]`, not as the key `a\`; the `]` that should close the
      attribute selector is part of the value. */
  lemma CssEscapeAsWrittenMisreadsKey()
    ensures CssString(CssEscape(Str("a\\")) + "\"]") == Some(("a\"]", ""))
    ensures "a\"]" != "a\\"
  {
    assert HtmlEscape.ReplaceAll("a\\", '"', EscapedQuote) == "a\\" by {
      assert "a\\"[1..] == "\\" && "\\"[1..] == "";
    }
    var t := CssEscape(Str("a\\")) + "\"]";
    assert t == "a\\\"]";
    assert t[1..] == "\\\"]" && t[1..][2..] == "]" && "]"[1..] == "";
    var u := t[1..];
    assert u[0] == '\\' && u[1] == '"' && !IsHexDigit(u[1]) && u[2..] == "]";
    assert CssString("") == Some(("", ""));
    assert CssString("]") == Prepend(']', CssString("")) == Some(([']'] + "", ""));
    assert [']'] + "" == "]" && ['"'] + "]" == "\"]" && ['a'] + "\"]" == "a\"]";
    assert CssString(u) == Prepend('"', CssString("]")) == Some(("\"]", ""));
    assert CssString(t) == Prepend('a', CssString(u));
  }

  /** A key holding a newline: the escaped key keeps the raw newline inside
      the selector's string, which makes a bad string, so the selector does
      not parse and `querySelector` throws. */
  lemma CssEscapeNewlineKeyIsBadString()
    ensures CssString(CssEscape(Str("a\nb")) + "\"]") == None
  {
    HtmlEscape.ReplaceAllAbsent("a\nb", '"', EscapedQuote);
    var t := CssEscape(Str("a\nb")) + "\"]";
    assert t == "a\nb\"]";
    assert t[1..][0] == '\n';
  }

  /** Each backslash and each quote preceded by a backslash: backslashes
      first, then quotes, the ordering that keeps the HTML escape from
      rewriting its own entities. */
  function EscapeBackslashes(s: string): string {
    HtmlEscape.ReplaceAll(HtmlEscape.ReplaceAll(s, '\\', "\\\\"), '"', EscapedQuote)
  }

  /** The escape the selector needs. */
  function CssEscapeCorrected(value: Value): (r: string)
    ensures NoNewline(ToStr(value)) ==> CssString(r + "\"") == Some((ToStr(value), ""))
  {
    var s := ToStr(value);
    var r := EscapeBackslashes(s);
    assert r + "\"" + "" == r + "\"";
    if NoNewline(s) then CssStringOfCorrected(s, ""); r else r
  }

  lemma {:induction false} CssStringOfCorrected(s: string, rest: string)
    requires NoNewline(s)
    ensures CssString(EscapeBackslashes(s) + "\"" + rest) == Some((s, rest))
  {
    if s == [] {
      assert EscapeBackslashes(s) + "\"" + rest == "\"" + rest;
    } else {
      CssStringOfCorrected(s[1..], rest);
      EscapeBackslashesCons(s);
      CssStringStep(s[0], EscapeBackslashes(s[1..]), rest, s[1..]);
      assert [s[0]] + s[1..] == s;
    }
  }

  lemma EscapeBackslashesCons(s: string)
    requires s != []
    ensures EscapeBackslashes(s) == EscapedChar(s[0]) + EscapeBackslashes(s[1..])
  {
    var once := if s[0] == '\\' then "\\\\" else [s[0]];
    assert HtmlEscape.ReplaceAll(s, '\\', "\\\\") == once + HtmlEscape.ReplaceAll(s[1..], '\\', "\\\\");
    HtmlEscape.ReplaceAllConcat(once, HtmlEscape.ReplaceAll(s[1..], '\\', "\\\\"), '"', EscapedQuote);
    if s[0] == '\\' {
      HtmlEscape.ReplaceAllAbsent("\\\\", '"', EscapedQuote);
    } else {
      HtmlEscape.ReplaceAllSingle(s[0], '"', EscapedQuote);
    }
  }

  // ---------------------------------------------------------------------------
  // Toasts

  datatype Icon = NoIcon | CheckIcon | CrossIcon | WarningIcon

  datatype ToastStyle = ToastStyle(border: string, icon: Icon, titleColor: string)

  const NeutralBorder := "border-l-4 border-slate-500"
  const SuccessBorder := "border-l-4 border-green-500"
  const ErrorBorder := "border-l-4 border-red-500"
  const WarningBorder := "border-l-4 border-yellow-500"
  const TitleColor := "text-slate-900"
  /** `showToast`'s default duration in milliseconds. */
  const DefaultToastDuration := 3000

  /** The style `showToast` picks for `type`, compared with `===`. */
  function ToastStyleOf(kind: Value): (style: ToastStyle)
    ensures style.titleColor == TitleColor
    ensures style.border == SuccessBorder <==> kind == Str("success")
    ensures style.border == ErrorBorder <==> kind == Str("error")
    ensures style.border == WarningBorder <==> kind == Str("warning")
    ensures style.icon == NoIcon <==> style.border == NeutralBorder
    ensures style.icon == CheckIcon <==> kind == Str("success")
    ensures style.icon == CrossIcon <==> kind == Str("error")
    ensures style.icon == WarningIcon <==> kind == Str("warning")
  {
    if kind == Str("success") then ToastStyle(SuccessBorder, CheckIcon, TitleColor)
    else if kind == Str("error") then ToastStyle(ErrorBorder, CrossIcon, TitleColor)
    else if kind == Str("warning") then ToastStyle(WarningBorder, WarningIcon, TitleColor)
    else ToastStyle(NeutralBorder, NoIcon, TitleColor)
  }

  /** Every unknown type, a missing one included, looks the same. */
  lemma UnknownToastTypesLookAlike(a: Value, b: Value)
    requires a !in {Str("success"), Str("error"), Str("warning")}
    requires b !in {Str("success"), Str("error"), Str("warning")}
    ensures ToastStyleOf(a) == ToastStyleOf(b) == ToastStyleOf(Undefined)
  {
  }

  /** A toast in the container: its style, the title and message it was
      given, and whether it removes itself after its duration. */
  datatype Toast = Toast(style: ToastStyle, title: Value, message: Value, autoRemove: bool)

  /** The escaped texts of a toast's markup: the title (`title || ""`) and,
      only for a truthy message, the message paragraph. */
  function ToastTexts(t: Toast): (texts: seq<string>)
    ensures |texts| == if Truthy(t.message) then 2 else 1
    ensures forall i | 0 <= i < |texts| :: HtmlEscape.NoRawMarkup(texts[i])
    ensures HtmlEscape.Unescape(texts[0], AposEntity) == (if Truthy(t.title) then ToStr(t.title) else "")
    ensures |texts| == 2 ==> HtmlEscape.Unescape(texts[1], AposEntity) == ToStr(t.message)
  {
    [EscapeHtml(Or(t.title, Str("")))] + (if Truthy(t.message) then [EscapeHtml(t.message)] else [])
  }

  /** `duration > 0` */
  predicate Positive(duration: Value) {
    match ToNumber(duration)
    case Finite(r) => r > 0.0
    case Infinity(negative) => !negative
    case NaN => false
  }

  // ---------------------------------------------------------------------------
  // The submit button and the spinner

  datatype Span = Span(text: string, faded: bool)

  /** The submit button: its `disabled` flag, its text, `dataset.defaultText`
      ("" while unset) and its inner `span`, if any. */
  datatype Button = Button(disabled: bool, text: string, defaultText: string, span: Option<Span>)

  /** `btn.querySelector("span")?.textContent || btn.textContent` */
  function ButtonLabel(b: Button): string {
    if b.span.Some? && b.span.value.text != "" then b.span.value.text else b.text
  }

  /** The button after `setLoading(loading)`. */
  function LoadingButton(b: Button, loading: bool): (r: Button)
    ensures r.disabled == loading && r.text == b.text
    ensures b.defaultText != "" ==> r.defaultText == b.defaultText
    ensures b.defaultText == "" ==> r.defaultText == ButtonLabel(b)
    ensures r.span.Some? <==> b.span.Some?
    ensures r.span.Some? ==> r.span.value == b.span.value.(faded := loading)
  {
    var recorded := if b.defaultText != "" then b.defaultText else ButtonLabel(b);
    var span := if b.span.Some? then Some(b.span.value.(faded := loading)) else None;
    Button(loading, b.text, recorded, span)
  }

  /** The default text is recorded once and then kept, and only the last
      call's state shows: loading then not loading is as if only the second
      call had been made. */
  lemma LoadingKeepsDefaultText(b: Button, first: bool, second: bool)
    ensures LoadingButton(LoadingButton(b, first), second).defaultText == LoadingButton(b, first).defaultText
    ensures b.defaultText != "" ==> LoadingButton(LoadingButton(b, first), second) == LoadingButton(b, second)
  {
  }

  /** The spinner: its `hidden` flag and `style.display`. */
  datatype Spinner = Spinner(hidden: bool, display: string)

  function LoadingSpinner(loading: bool): (s: Spinner)
    ensures s.hidden <==> !loading
    ensures s.display == "flex" <==> loading
    ensures s.hidden <==> s.display == "none"
  {
    Spinner(!loading, if loading then "flex" else "none")
  }

  // ---------------------------------------------------------------------------
  // The loading overlay

  /** Enough of the document tree to say which element a selector finds. */
  datatype Node = Element(tag: string, children: seq<Node>) | Text(data: string)

  const LoaderSpinner := Element("svg", [Element("circle", [])])

  /** The overlay's markup as `showGlobalLoader` builds it, showing `message`. */
  function OverlayContent(message: string): Node {
    Element("div", [Element("div", [LoaderSpinner, Element("div", [Text(message)])])])
  }

  /** The path of the element that holds the message. */
  const MessagePath: seq<nat> := [0, 1]

  /** The path of the first element, in document order, that `div > div`
      matches among the descendants of `n`. */
  function FindDivInDiv(n: Node): (p: Option<seq<nat>>)
    ensures p.Some? ==> |p.value| > 0
    decreases n, 1
  {
    match n
    case Text(_) => None
    case Element(tag, children) => FindInChildren(tag, children)
  }

  function FindInChildren(parentTag: string, children: seq<Node>): (p: Option<seq<nat>>)
    ensures p.Some? ==> |p.value| > 0
    decreases children, 0
  {
    if children == [] then None
    else if parentTag == "div" && children[0].Element? && children[0].tag == "div" then Some([0])
    else match FindDivInDiv(children[0])
      case Some(p) => Some([0] + p)
      case None =>
        match FindInChildren(parentTag, children[1..])
        case Some(p) => Some([p[0] + 1] + p[1..])
        case None => None
  }

  /** Setting `textContent` of the element at `path`: its children become
      one text node. */
  function SetTextAt(n: Node, path: seq<nat>, t: string): Node
    decreases path
  {
    if path == [] then
      match n
      case Element(tag, _) => Element(tag, [Text(t)])
      case Text(_) => Text(t)
    else
      match n
      case Text(_) => n
      case Element(tag, children) =>
        if path[0] < |children| then Element(tag, children[path[0] := SetTextAt(children[path[0]], path[1..], t)]) else n
  }

  /** The overlay shows the spinner. */
  predicate ShowsSpinner(n: Node) {
    n.Element? && |n.children| == 1 && n.children[0].Element?
    && |n.children[0].children| >= 1 && n.children[0].children[0] == LoaderSpinner
  }

  /** Re-showing an existing overlay as written: the text goes to the
      element `div > div` finds. */
  function RefreshedAsWritten(content: Node, message: string): Node {
    match FindDivInDiv(content)
    case Some(p) => SetTextAt(content, p, message)
    case None => content
  }

  /** `div > div` finds the overlay's inner column, not the message element,
      so re-showing the overlay replaces the spinner and the message element
      with bare text. */
  lemma GlobalLoaderAsWrittenLosesSpinner(shown: string, message: string)
    ensures FindDivInDiv(OverlayContent(shown)) == Some([0])
    ensures ShowsSpinner(OverlayContent(shown))
    ensures RefreshedAsWritten(OverlayContent(shown), message) == Element("div", [Element("div", [Text(message)])])
    ensures !ShowsSpinner(RefreshedAsWritten(OverlayContent(shown), message))
  {
  }

  /** Re-showing an existing overlay with the text written to the message
      element. */
  function Refreshed(content: Node, message: string): Node {
    SetTextAt(content, MessagePath, message)
  }

  /** The corrected refresh leaves the overlay as a fresh one would be. */
  lemma RefreshedShowsMessage(shown: string, message: string)
    ensures Refreshed(OverlayContent(shown), message) == OverlayContent(message)
    ensures ShowsSpinner(Refreshed(OverlayContent(shown), message))
  {
    assert MessagePath[1..] == [1] && [1][1..] == [];
    var column := Element("div", [LoaderSpinner, Element("div", [Text(shown)])]);
    assert SetTextAt(column, [1], message) == Element("div", [LoaderSpinner, Element("div", [Text(message)])]);
  }

  datatype Overlay = Overlay(display: string, content: Node)

  ghost predicate IsLoaderOverlay(o: Overlay) {
    exists m :: o.content == OverlayContent(m)
  }

  // ---------------------------------------------------------------------------
  // Form error slots

  /** An element carrying `data-error-for`, and its text. */
  datatype ErrorSlot = ErrorSlot(field: string, text: string)

  /** `el.textContent = msg`: null and undefined clear the text. */
  function TextContent(v: Value): (t: string)
    ensures Nullish(v) ==> t == ""
  {
    if Nullish(v) then "" else ToStr(v)
  }

  /** Slot `i` is the first one for its field, the one `querySelector` finds. */
  predicate FirstFor(slots: seq<ErrorSlot>, i: nat)
    requires i < |slots|
  {
    forall j | 0 <= j < i :: slots[j].field != slots[i].field
  }

  /** The slots after `setFormErrors` with the entries `errors`. */
  function WithErrors(slots: seq<ErrorSlot>, errors: map<string, Value>): (r: seq<ErrorSlot>)
    ensures |r| == |slots|
    ensures forall i | 0 <= i < |slots| :: r[i].field == slots[i].field
  {
    seq(|slots|, i requires 0 <= i < |slots| =>
      if slots[i].field in errors && FirstFor(slots, i) then slots[i].(text := TextContent(errors[slots[i].field]))
      else slots[i])
  }

  /** Every entry with a slot shows its message there; a slot of no entry,
      or behind the first one for its field, keeps its text. */
  lemma WithErrorsShowsEachEntry(slots: seq<ErrorSlot>, errors: map<string, Value>)
    ensures var r := WithErrors(slots, errors);
      && (forall i | 0 <= i < |slots| && slots[i].field in errors && FirstFor(slots, i) :: r[i].text == TextContent(errors[slots[i].field]))
      && (forall i | 0 <= i < |slots| && (slots[i].field !in errors || !FirstFor(slots, i)) :: r[i] == slots[i])
  {
  }

  /** An entry without a slot changes nothing. */
  lemma WithErrorsIgnoresUnmatched(slots: seq<ErrorSlot>, errors: map<string, Value>, k: string)
    requires forall i | 0 <= i < |slots| :: slots[i].field != k
    ensures WithErrors(slots, errors) == WithErrors(slots, errors - {k})
  {
  }

  /** The slots after `clearFormErrors`. */
  function Cleared(slots: seq<ErrorSlot>): (r: seq<ErrorSlot>)
    ensures |r| == |slots|
    ensures forall i | 0 <= i < |slots| :: r[i] == slots[i].(text := "")
  {
    seq(|slots|, i requires 0 <= i < |slots| => slots[i].(text := ""))
  }

  /** After clearing, a slot shows a message exactly when it is the first one
      for a field that has an entry. */
  lemma ClearedThenErrors(slots: seq<ErrorSlot>, errors: map<string, Value>)
    ensures var r := WithErrors(Cleared(slots), errors);
      forall i | 0 <= i < |slots| ::
        r[i].text == if slots[i].field in errors && FirstFor(slots, i) then TextContent(errors[slots[i].field]) else ""
  {
    var c := Cleared(slots);
    forall i | 0 <= i < |slots|
      ensures FirstFor(c, i) == FirstFor(slots, i)
    {
    }
  }

  /** Adding one entry to those already applied writes only the first slot
      for its field. */
  lemma {:induction false} WithErrorsStep(orig: seq<ErrorSlot>, done: map<string, Value>, k: string, v: Value, i: nat)
    requires k !in done
    requires i <= |orig|
    requires forall j | 0 <= j < i :: orig[j].field != k
    requires i < |orig| ==> orig[i].field == k
    ensures i < |orig| ==> WithErrors(orig, done[k := v]) == WithErrors(orig, done)[i := WithErrors(orig, done)[i].(text := TextContent(v))]
    ensures i == |orig| ==> WithErrors(orig, done[k := v]) == WithErrors(orig, done)
  {
    var before, after := WithErrors(orig, done), WithErrors(orig, done[k := v]);
    if i < |orig| {
      assert FirstFor(orig, i);
      forall j | 0 <= j < |orig| && j != i
        ensures after[j] == before[j]
      {
        if orig[j].field == k {
          assert j > i;
          assert !FirstFor(orig, j) by { assert orig[i].field == orig[j].field; }
        }
      }
    } else {
      forall j | 0 <= j < |orig|
        ensures after[j] == before[j]
      {
        assert orig[j].field != k;
      }
    }
  }

  // ---------------------------------------------------------------------------
  // The document

  class Document {
    /** Whether the page has `#toast-container`. */
    var toastContainer: bool
    var toasts: seq<Toast>
    /** `#submitBtn` and `#loadingSpinner`, where present. */
    var submitButton: Option<Button>
    var spinner: Option<Spinner>
    /** The elements `#globalLoadingOverlay` and `#globalLoaderStyles`. */
    var overlays: seq<Overlay>
    var loaderStyles: nat
    /** The error slots of each form, by form id. */
    var forms: map<string, seq<ErrorSlot>>

    /** At most one overlay and one style element exist, and the overlay is
        the loader's. */
    ghost predicate Valid()
      reads this
    {
      |overlays| <= 1 && loaderStyles <= 1 && (overlays != [] ==> loaderStyles == 1 && IsLoaderOverlay(overlays[0]))
    }

    /** A page with the given elements and no overlay yet. */
    constructor(toastContainer: bool, submitButton: Option<Button>, spinner: Option<Spinner>, forms: map<string, seq<ErrorSlot>>)
      ensures Valid() && overlays == [] && toasts == []
      ensures this.toastContainer == toastContainer && this.submitButton == submitButton
      ensures this.spinner == spinner && this.forms == forms
    {
      this.toastContainer := toastContainer;
      this.submitButton := submitButton;
      this.spinner := spinner;
      this.forms := forms;
      toasts, overlays, loaderStyles := [], [], 0;
    }

    /** `showToast({type, title, message, duration})`: nothing happens
        without the container; an undefined duration means the default. */
    method ShowToast(kind: Value, title: Value, message: Value, duration: Value)
      modifies this`toasts
      ensures !toastContainer ==> toasts == old(toasts)
      ensures toastContainer ==>
        toasts == old(toasts) + [Toast(ToastStyleOf(kind), title, message,
                                       if duration.Undefined? then DefaultToastDuration > 0 else Positive(duration))]
    {
      if !toastContainer {
        return;
      }
      var d := if duration.Undefined? then Num(Finite(DefaultToastDuration as real)) else duration;
      toasts := toasts + [Toast(ToastStyleOf(kind), title, message, Positive(d))];
    }

    /** `showBanner`: a toast with the default duration. */
    method ShowBanner(kind: Value, title: Value, message: Value)
      modifies this`toasts
      ensures toasts == old(toasts) + (if toastContainer then [Toast(ToastStyleOf(kind), title, message, true)] else [])
    {
      ShowToast(kind, title, message, Undefined);
    }

    /** `setLoading(isLoading)` */
    method SetLoading(isLoading: Value)
      modifies this`submitButton, this`spinner
      ensures submitButton == if old(submitButton).None? then None else Some(LoadingButton(old(submitButton).value, Truthy(isLoading)))
      ensures spinner == if old(spinner).None? then None else Some(LoadingSpinner(Truthy(isLoading)))
    {
      if submitButton.Some? {
        submitButton := Some(LoadingButton(submitButton.value, Truthy(isLoading)));
      }
      if spinner.Some? {
        spinner := Some(LoadingSpinner(Truthy(isLoading)));
      }
    }

    /** `showGlobalLoader(message)`: the existing overlay is shown again with
        the new message, or one is created (with its style element, unless
        one exists); either way exactly one overlay shows the spinner and
        the message. */
    method ShowGlobalLoader(message: string)
      requires Valid()
      modifies this`overlays, this`loaderStyles
      ensures Valid()
      ensures overlays == [Overlay("flex", OverlayContent(message))]
    {
      if overlays != [] {
        ghost var shown :| overlays[0].content == OverlayContent(shown);
        RefreshedShowsMessage(shown, message);
        overlays := [Overlay("flex", Refreshed(overlays[0].content, message))];
      } else {
        var markup := EscapeHtml(Str(message));
        overlays := [Overlay("flex", OverlayContent(HtmlEscape.Unescape(markup, AposEntity)))];
        if loaderStyles == 0 {
          loaderStyles := 1;
        }
      }
      assert IsLoaderOverlay(overlays[0]) by {
        assert overlays[0].content == OverlayContent(message);
      }
    }

    /** `hideGlobalLoader()`: hides the overlay, if there is one. */
    method HideGlobalLoader()
      requires Valid()
      modifies this`overlays
      ensures Valid()
      ensures old(overlays) == [] ==> overlays == []
      ensures old(overlays) != [] ==> overlays == [old(overlays)[0].(display := "none")]
    {
      if overlays != [] {
        overlays := [overlays[0].(display := "none")];
        assert IsLoaderOverlay(overlays[0]) by {
          assert overlays[0].content == old(overlays)[0].content;
        }
      }
    }

    /** `clearFormErrors(formId)` */
    method ClearFormErrors(formId: string)
      modifies this`forms
      ensures formId !in old(forms) ==> forms == old(forms)
      ensures formId in old(forms) ==> forms == old(forms)[formId := Cleared(old(forms)[formId])]
    {
      if formId !in forms {
        return;
      }
      var orig := forms[formId];
      var slots := orig;
      var i := 0;
      while i < |slots|
        invariant 0 <= i <= |slots| == |orig|
        invariant forall j | 0 <= j < i :: slots[j] == orig[j].(text := "")
        invariant forall j | i <= j < |slots| :: slots[j] == orig[j]
      {
        slots := slots[i := slots[i].(text := "")];
        i := i + 1;
      }
      assert slots == Cleared(orig);
      forms := forms[formId := slots];
    }

    /** `setFormErrors(formId, errors)`: nothing happens without the form or
        with falsy errors; otherwise each entry's message goes to the first
        slot for its field, if there is one. */
    method SetFormErrors(formId: string, errors: Value)
      modifies this`forms
      ensures formId !in old(forms) || !Truthy(errors) ==> forms == old(forms)
      ensures formId in old(forms) && Truthy(errors) ==>
        forms == old(forms)[formId := WithErrors(old(forms)[formId], SpreadOf(errors))]
    {
      if formId !in forms || !Truthy(errors) {
        return;
      }
      var entries := SpreadOf(errors);
      var orig := forms[formId];
      var slots := orig;
      var remaining := entries.Keys;
      while remaining != {}
        invariant remaining <= entries.Keys && forms == old(forms)
        invariant slots == WithErrors(orig, map k | k in entries && k !in remaining :: entries[k])
        decreases remaining
      {
        var k :| k in remaining;
        ghost var done := map k | k in entries && k !in remaining :: entries[k];
        var i := 0;
        while i < |slots| && slots[i].field != k
          invariant 0 <= i <= |slots|
          invariant forall j | 0 <= j < i :: orig[j].field != k
        {
          i := i + 1;
        }
        WithErrorsStep(orig, done, k, entries[k], i);
        if i < |slots| {
          slots := slots[i := slots[i].(text := TextContent(entries[k]))];
        }
        remaining := remaining - {k};
        assert done[k := entries[k]] == map k | k in entries && k !in remaining :: entries[k];
      }
      assert entries == map k | k in entries && k !in remaining :: entries[k];
      forms := forms[formId := slots];
    }
  }
}
