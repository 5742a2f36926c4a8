/**
 * The content script: on a mouse release it decides which text, if any, is
 * copied to the clipboard, and it keeps the in_input_elements option current.
 * The clipboard write, the listener attachment and the DOM queries are not
 * modelled: the event handler receives a snapshot of what it reads and
 * returns the text it would hand to `copy`.
 */
module ContentScript {
  import opened Values
  import opened Common

  /** The one site on which events are ignored. */
  const EXCLUDED_HOST: string := "docs.google.com"

  /**
   * The event target as the handler reads it: whether it is the document's
   * active element, and its `value`, `selectionStart` and `selectionEnd`
   * when those are a string and numbers (`None` when of another type).
   * The offsets count UTF-16 code units of the value, as the DOM does.
   */
  datatype Target = Target(
    isActiveElement: bool,
    value: Option<JsString>,
    selectionStart: Option<int>,
    selectionEnd: Option<int>)

  /**
   * A released mouse button with what the handler reads of the document:
   * the host name of the document's URL (ASCII once the URL is parsed) and
   * the page selection's text.
   */
  datatype MouseEvent = MouseEvent(
    isTrusted: bool,
    defaultPrevented: bool,
    hostname: string,
    pageSelection: JsString,
    target: Target)

  /** `min(max(x, 0), len)`, how `substring` clamps an index. */
  function Clamp(x: int, len: nat): (c: nat)
    ensures c <= len
    ensures 0 <= x <= len ==> c == x
    ensures x < 0 ==> c == 0
    ensures x > len ==> c == len
  {
    if x < 0 then 0 else if x > len then len else x
  }

  /**
   * `s.substring(start, end)`: both indices clamped to the string, the
   * smaller one taken as the start.
   */
  function Substring(s: JsString, start: int, end: int): (r: JsString)
    ensures 0 <= start <= end <= |s| ==> r == s[start..end]
    ensures |r| == if Clamp(start, |s|) <= Clamp(end, |s|) then Clamp(end, |s|) - Clamp(start, |s|)
                   else Clamp(start, |s|) - Clamp(end, |s|)
  {
    var a, b := Clamp(start, |s|), Clamp(end, |s|);
    if a <= b then s[a..b] else s[b..a]
  }

  /** The guards ahead of any copy: a trusted event, not default-prevented, not on the excluded site. */
  predicate Eligible(e: MouseEvent) {
    e.isTrusted && !e.defaultPrevented && e.hostname != EXCLUDED_HOST
  }

  /** The target holds a non-empty selection range in an input element, as the handler tests it. */
  predicate InputSelection(t: Target) {
    && t.isActiveElement
    && t.value.Some? && t.selectionStart.Some? && t.selectionEnd.Some?
    && t.selectionStart.value < t.selectionEnd.value
  }

  /**
   * The decision of `handleEvent`: the text it passes to `copy`, or `None`
   * when it returns without copying.  At most one copy is issued per event,
   * since the result is a single option.
   */
  function CopyDecision(e: MouseEvent, inInputElements: bool): (r: Option<JsString>)
    ensures !e.isTrusted ==> r == None
    ensures e.defaultPrevented ==> r == None
    ensures e.hostname == EXCLUDED_HOST ==> r == None
    ensures Eligible(e) && e.pageSelection != [] ==> r == Some(e.pageSelection)
    ensures r.Some? && e.pageSelection == [] ==>
      inInputElements && InputSelection(e.target)
    ensures Eligible(e) && e.pageSelection == [] && inInputElements && InputSelection(e.target) ==>
      r == Some(Substring(e.target.value.value, e.target.selectionStart.value, e.target.selectionEnd.value))
    ensures r.Some? ==> Eligible(e)
  {
    var s, t := e.pageSelection, e.target;
    if !e.isTrusted then None
    else if e.defaultPrevented then None
    else if e.hostname == EXCLUDED_HOST then None
    else if |s| > 0 then Some(s)
    else if && inInputElements
            && t.isActiveElement
            && t.value.Some?
            && t.selectionStart.Some?
            && t.selectionEnd.Some?
            && t.selectionStart.value < t.selectionEnd.value
    then Some(Substring(t.value.value, t.selectionStart.value, t.selectionEnd.value))
    else None
  }

  /**
   * A substring over an ascending range is empty exactly when the range
   * misses the string altogether.
   */
  lemma InputCopyNonEmpty(s: JsString, start: int, end: int)
    requires start < end
    ensures Substring(s, start, end) != [] <==> start < |s| && 0 < end && s != []
  {
  }

  /**
   * Offsets count code units: over U+1F600 followed by "x", the range 0 to 2
   * is the surrogate pair of U+1F600 alone, and 0 to 1 its lone high surrogate.
   */
  lemma SubstringCountsCodeUnits()
    ensures Substring([0xD83D, 0xDE00, 0x78], 0, 2) == [0xD83D, 0xDE00]
    ensures Substring([0xD83D, 0xDE00, 0x78], 0, 1) == [0xD83D]
  {
  }

  /**
   * The copied text is never empty, provided the offsets lie within the
   * value (the DOM keeps them there: they are unsigned and at most its length).
   */
  lemma CopiedTextNonEmpty(e: MouseEvent, inInputElements: bool)
    requires e.target.selectionStart.Some? ==> 0 <= e.target.selectionStart.value
    requires e.target.value.Some? && e.target.selectionEnd.Some? ==>
      e.target.selectionEnd.value <= |e.target.value.value|
    ensures CopyDecision(e, inInputElements).Some? ==> CopyDecision(e, inInputElements).value != []
  {
  }

  /** A non-empty page selection decides the copy whatever the flag and the target. */
  lemma PageSelectionFirst(e: MouseEvent, t: Target, flag1: bool, flag2: bool)
    requires e.pageSelection != []
    ensures CopyDecision(e, flag1) == CopyDecision(e.(target := t), flag2)
  {
  }

  /**
   * With in_input_elements off only the page selection is ever copied, and
   * turning it on never takes a copy away.
   */
  lemma FlagOnlyAddsInputCopies(e: MouseEvent)
    ensures CopyDecision(e, false).Some? ==> CopyDecision(e, false) == Some(e.pageSelection)
    ensures CopyDecision(e, false).Some? ==> CopyDecision(e, true) == CopyDecision(e, false)
  {
  }

  /** One storage change notification entry, `{ oldValue, newValue }`; an absent value is `Undefined`. */
  datatype StorageChange = StorageChange(oldValue: Value, newValue: Value)

  /** The `CopyOnSelect` object with its option field. */
  class CopyOnSelect {
    var inInputElements: Value

    /** The object literal: the option starts out `false`. */
    constructor ()
      ensures inInputElements == VBool(false)
    {
      inInputElements := VBool(false);
    }

    /** The option read of `initialize`: the stored value as is, `undefined` when absent. */
    method Initialize(storage: map<string, Value>)
      modifies this
      ensures inInputElements == Get(storage, IN_INPUT_ELEMENTS)
    {
      inInputElements := Get(storage, IN_INPUT_ELEMENTS);
    }

    /** The storage change listener installed by `initialize`. */
    method OnChanged(changes: map<string, StorageChange>)
      modifies this
      ensures IN_INPUT_ELEMENTS in changes ==> inInputElements == changes[IN_INPUT_ELEMENTS].newValue
      ensures IN_INPUT_ELEMENTS !in changes ==> inInputElements == old(inInputElements)
    {
      if IN_INPUT_ELEMENTS in changes {
        inInputElements := changes[IN_INPUT_ELEMENTS].newValue;
      }
    }

    /** `handleEvent`, deciding with the current value of the option. */
    method HandleEvent(e: MouseEvent) returns (copy: Option<JsString>)
      ensures copy == CopyDecision(e, Truthy(inInputElements))
    {
      copy := CopyDecision(e, Truthy(inInputElements));
    }
  }
}
