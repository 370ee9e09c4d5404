/**
 * The decisions taken by the chat input box
 * (packages/jupyter-chat/src/components/chat-input.tsx): whether a key press
 * sends the message, whether the send button is disabled, and which helper
 * text is shown under the box. The rendering itself is not modelled.
 */
module ChatInput {

  /**
   * The characters JavaScript's `String.prototype.trim` strips: the ECMAScript
   * WhiteSpace code points (tab, vertical tab, form feed, zero-width no-break
   * space and every space separator) and the LineTerminator code points.
   */
  predicate IsTrimmable(c: char)
  {
    || c == '\U{0009}' || c == '\U{000B}' || c == '\U{000C}' || c == '\U{FEFF}'
    || c == ' ' || c == '\U{00A0}' || c == '\U{1680}' || '\U{2000}' <= c <= '\U{200A}'
    || c == '\U{202F}' || c == '\U{205F}' || c == '\U{3000}'
    || c == '\n' || c == '\r' || c == '\U{2028}' || c == '\U{2029}'
  }

  /** Every character of `s` is stripped by `trim`. */
  ghost predicate Blank(s: string)
  {
    forall i | 0 <= i < |s| :: IsTrimmable(s[i])
  }

  /**
   * JavaScript's `length`: the number of UTF-16 code units, so a character
   * outside the Basic Multilingual Plane counts twice.
   */
  function Utf16Length(s: string): (n: nat)
    ensures |s| <= n <= 2 * |s|
    ensures n == 0 <==> s == []
  {
    if s == [] then 0
    else (if s[0] as int > 0xFFFF then 2 else 1) + Utf16Length(s[1..])
  }

  /** `s` with its leading trimmable characters removed. */
  function TrimStart(s: string): (r: string)
    ensures |r| <= |s| && r == s[|s| - |r|..]
    ensures Blank(s[..|s| - |r|])
    ensures r == [] || !IsTrimmable(r[0])
  {
    if s != [] && IsTrimmable(s[0]) then TrimStart(s[1..]) else s
  }

  /** `s` with its trailing trimmable characters removed. */
  function TrimEnd(s: string): (r: string)
    ensures |r| <= |s| && r == s[..|r|]
    ensures Blank(s[|r|..])
    ensures r == [] || !IsTrimmable(r[|r| - 1])
  {
    if s != [] && IsTrimmable(s[|s| - 1]) then TrimEnd(s[..|s| - 1]) else s
  }

  /** JavaScript's `trim`: both ends stripped. */
  function Trim(s: string): (r: string)
    ensures exists i, j | 0 <= i <= j <= |s| :: r == s[i..j] && Blank(s[..i]) && Blank(s[j..])
    ensures r == [] || (!IsTrimmable(r[0]) && !IsTrimmable(r[|r| - 1]))
  {
    var t := TrimStart(s);
    var r := TrimEnd(t);
    var i := |s| - |t|;
    var j := i + |r|;
    assert r == s[i..j];
    assert s[j..] == t[|r|..];
    r
  }

  /** Trimming leaves nothing exactly when every character is trimmable. */
  lemma TrimEmptyIffBlank(s: string)
    ensures Trim(s) == [] <==> Blank(s)
  {
  }

  /** The send button's `disabled`: the trimmed value has length zero. */
  function SendDisabled(value: string): (disabled: bool)
    ensures disabled <==> Blank(value)
  {
    TrimEmptyIffBlank(value);
    Utf16Length(Trim(value)) == 0
  }

  /** A key press: the key's name and whether Shift was held. */
  datatype KeyEvent = KeyEvent(key: string, shiftKey: bool)

  /** What the key handler does, in the order it does it. */
  datatype Effect = CallOnSend | StopPropagation | PreventDefault

  /**
   * `handleKeyDown`: Enter sends when the Shift state agrees with
   * `sendWithShiftEnter`; then the event is stopped and its default prevented.
   * Any other press does nothing.
   */
  function HandleKeyDown(sendWithShiftEnter: bool, event: KeyEvent): (effects: seq<Effect>)
    ensures effects == [] || effects == [CallOnSend, StopPropagation, PreventDefault]
    ensures effects != [] <==> event.key == "Enter" && event.shiftKey == sendWithShiftEnter
  {
    if event.key == "Enter"
       && ((sendWithShiftEnter && event.shiftKey) || (!sendWithShiftEnter && !event.shiftKey))
    then [CallOnSend, StopPropagation, PreventDefault]
    else []
  }

  /** A key other than Enter never sends, whatever Shift and the setting are. */
  lemma OnlyEnterSends(sendWithShiftEnter: bool, event: KeyEvent)
    requires event.key != "Enter"
    ensures HandleKeyDown(sendWithShiftEnter, event) == []
  {
  }

  /** For a given Enter press, flipping the setting flips whether it sends. */
  lemma SettingFlipsEnter(sendWithShiftEnter: bool, shiftKey: bool)
    ensures HandleKeyDown(sendWithShiftEnter, KeyEvent("Enter", shiftKey)) != []
        <==> HandleKeyDown(!sendWithShiftEnter, KeyEvent("Enter", shiftKey)) == []
  {
  }

  const SendHint := "Press Shift+Enter to send message"
  const NewLineHint := "Press Shift+Enter to add a new line"

  /** The helper text chosen by the setting. */
  function ShiftEnterHint(sendWithShiftEnter: bool): (hint: string)
    ensures hint != " "
    ensures hint == SendHint <==> sendWithShiftEnter
    ensures !sendWithShiftEnter ==> hint == NewLineHint
  {
    if sendWithShiftEnter then SendHint else NewLineHint
  }

  /**
   * The text under the input box: the Shift+Enter hint once the value is longer
   * than two UTF-16 code units, a single space before that.
   */
  function HelperText(value: string, sendWithShiftEnter: bool): (text: string)
    ensures text != " " <==> Utf16Length(value) > 2
    ensures text != " " ==> text == ShiftEnterHint(sendWithShiftEnter)
  {
    if Utf16Length(value) > 2 then ShiftEnterHint(sendWithShiftEnter) else " "
  }

  /**
   * Counted in characters, the hint shows for every value of three or more and
   * for no value of fewer than two; for two it depends on surrogate pairs.
   */
  lemma HelperTextByCharacters(value: string, sendWithShiftEnter: bool)
    ensures |value| > 2 ==> HelperText(value, sendWithShiftEnter) != " "
    ensures |value| < 2 ==> HelperText(value, sendWithShiftEnter) == " "
  {
  }

  /** Two characters show the hint when one of them needs a surrogate pair. */
  lemma HelperTextCountsCodeUnits()
    ensures HelperText("ab", true) == " "
    ensures HelperText("a\U{1F600}", true) == SendHint
  {
  }
}
