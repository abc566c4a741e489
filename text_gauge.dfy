/**
 * The display rule of src/gauges/base/HorizontalTextGauge.cs: a gauge that
 * shows a line of text, which is never more than MAX_CHARS characters long,
 * and whose on/off and limit hooks do nothing.
 */
module HorizontalTextGauge {
  import opened Wrappers

  const MAX_CHARS: nat := 13

  /** The text shown for a missing text. */
  const NOT_AVAILABLE: string := "N/A"

  /**
   * The text drawn for what `GetText()` returned: "N/A" for null, otherwise the
   * text cut to its first MAX_CHARS characters.
   */
  function DisplayText(text: Option<string>): (r: string)
    ensures |r| <= MAX_CHARS
    ensures text.None? ==> r == NOT_AVAILABLE
    ensures text.Some? ==> r <= text.value
    ensures text.Some? && |text.value| <= MAX_CHARS ==> r == text.value
    ensures text.Some? && |text.value| > MAX_CHARS ==> |r| == MAX_CHARS
  {
    match text
    case None => NOT_AVAILABLE
    case Some(t) => if |t| > MAX_CHARS then t[..MAX_CHARS] else t
  }

  /** Showing a text that is already displayed shows it unchanged. */
  lemma DisplayTextIdempotent(text: Option<string>)
    ensures DisplayText(Some(DisplayText(text))) == DisplayText(text)
  {
  }

  /** Two texts that agree on their first MAX_CHARS characters display alike. */
  lemma DisplayTextSeesOnlyPrefix(s: string, t: string)
    requires |s| >= MAX_CHARS && |t| >= MAX_CHARS
    requires s[..MAX_CHARS] == t[..MAX_CHARS]
    ensures DisplayText(Some(s)) == DisplayText(Some(t))
  {
  }

  /**
   * A horizontal text gauge. Its only state of its own is the text style,
   * created on the first draw; whether it has been created is `skinReady`.
   */
  class TextGauge {
    var skinReady: bool

    constructor ()
      ensures !skinReady
    {
      skinReady := false;
    }

    /**
     * One draw of the gauge window: creates the text style on first use and
     * returns the text drawn for `text`, the result of the gauge's `GetText()`.
     */
    method OnWindow(text: Option<string>) returns (shown: string)
      modifies this
      ensures skinReady
      ensures shown == DisplayText(text)
      ensures |shown| <= MAX_CHARS
    {
      if !skinReady {
        skinReady := true;
      }
      if text.None? {
        shown := NOT_AVAILABLE;
      } else {
        shown := text.value;
        if |shown| > MAX_CHARS {
          shown := shown[..MAX_CHARS];
        }
      }
    }

    /** A text gauge is always on. */
    function IsOn(): (r: bool)
      ensures r
    {
      true
    }

    /** A text gauge is always within its limits. */
    function IsInLimits(): (r: bool)
      ensures r
    {
      true
    }

    /** Switching on changes nothing. */
    method On()
      ensures IsOn()
    {
    }

    /** Switching off changes nothing: the gauge stays on. */
    method Off()
      ensures IsOn()
    {
    }

    /** Entering the limits changes nothing. */
    method InLimits()
      ensures IsInLimits()
    {
    }

    /** Leaving the limits changes nothing: the gauge stays within them. */
    method OutOfLimits()
      ensures IsInLimits()
    {
    }

    /** Resetting changes nothing. */
    method Reset()
      ensures IsOn() && IsInLimits()
    {
    }
  }
}
