/** The message input bar: it keeps the text being typed and hands it to the
    screen's send handler only in trimmed form, only when that form is not
    empty and only when the bar is not disabled. */
module ChatInput {
  import opened CharacterTypes

  /** The characters `String.prototype.trim` strips: the ECMAScript
      WhiteSpace and LineTerminator code points, written out (tab, line feed,
      vertical tab, form feed, carriage return, space, no-break space, ogham
      space mark, the spaces U+2000 to U+200A, line and paragraph separator,
      narrow no-break space, medium mathematical space, ideographic space and
      the byte order mark). */
  predicate IsWhitespace(c: char) {
    var n := c as int;
    (9 <= n <= 13) || n == 0x20 || n == 0xA0 || n == 0x1680
    || (0x2000 <= n <= 0x200A) || n == 0x2028 || n == 0x2029 || n == 0x202F
    || n == 0x205F || n == 0x3000 || n == 0xFEFF
  }

  predicate AllWhitespace(s: string) {
    forall k :: 0 <= k < |s| ==> IsWhitespace(s[k])
  }

  /** `r` sits in `s` at offset `lead` with nothing but whitespace around it. */
  predicate Framed(s: string, lead: nat, r: string) {
    && lead + |r| <= |s|
    && (forall k :: 0 <= k < |r| ==> s[lead + k] == r[k])
    && (forall k :: 0 <= k < lead ==> IsWhitespace(s[k]))
    && (forall k :: lead + |r| <= k < |s| ==> IsWhitespace(s[k]))
  }

  /** `s` without its leading whitespace. */
  function TrimStart(s: string): (r: string)
    ensures |r| <= |s| && r == s[|s| - |r|..]
    ensures forall k :: 0 <= k < |s| - |r| ==> IsWhitespace(s[k])
    ensures r != [] ==> !IsWhitespace(r[0])
    decreases |s|
  {
    if s != [] && IsWhitespace(s[0]) then TrimStart(s[1..]) else s
  }

  /** `s` without its trailing whitespace. */
  function TrimEnd(s: string): (r: string)
    ensures |r| <= |s| && r == s[..|r|]
    ensures forall k :: |r| <= k < |s| ==> IsWhitespace(s[k])
    ensures r != [] ==> !IsWhitespace(r[|r| - 1])
    decreases |s|
  {
    if s != [] && IsWhitespace(s[|s| - 1]) then TrimEnd(s[..|s| - 1]) else s
  }

  /** The properties of cutting the leading, then the trailing whitespace. */
  lemma TrimBothEnds(s: string)
    ensures Framed(s, |s| - |TrimStart(s)|, TrimEnd(TrimStart(s)))
    ensures TrimEnd(TrimStart(s)) == [] <==> AllWhitespace(s)
  {
  }

  /** Trimming: the part of `s` between its leading and trailing whitespace.
      It is empty exactly when `s` is all whitespace, and otherwise starts and
      ends with a non-whitespace character. */
  function Trim(s: string): (r: string)
    ensures r != [] ==> !IsWhitespace(r[0]) && !IsWhitespace(r[|r| - 1])
    ensures r == [] <==> AllWhitespace(s)
  {
    var t := TrimStart(s);
    TrimBothEnds(s);
    assert TrimEnd(t) != [] ==> TrimEnd(t)[0] == t[0];
    TrimEnd(t)
  }

  /** What trim removes is whitespace on both sides of its result. */
  lemma TrimFramed(s: string)
    ensures Framed(s, |s| - |TrimStart(s)|, Trim(s))
  {
    TrimBothEnds(s);
  }

  /** Trim is the only way to cut `s` into whitespace, a core that is empty or
      has non-whitespace ends, and whitespace. */
  lemma TrimUnique(s: string, lead: nat, r: string)
    requires Framed(s, lead, r)
    requires r != [] ==> !IsWhitespace(r[0]) && !IsWhitespace(r[|r| - 1])
    ensures r == Trim(s)
  {
  }

  /** Trimming a trimmed string changes nothing. */
  lemma TrimIdempotent(s: string)
    ensures Trim(Trim(s)) == Trim(s)
  {
    var t := Trim(s);
    assert Framed(t, 0, t);
    TrimUnique(t, 0, t);
  }

  /** `canSend`: the button is active exactly when the bar is enabled and the
      text holds a non-whitespace character. */
  function CanSend(message: string, disabled: bool): (r: bool)
    ensures r <==> !disabled && exists k :: 0 <= k < |message| && !IsWhitespace(message[k])
  {
    Trim(message) != [] && !disabled
  }

  /** Whitespace-only text never passes the guard. */
  lemma WhitespaceNeverSends(message: string, disabled: bool)
    requires AllWhitespace(message)
    ensures !CanSend(message, disabled)
  {
  }

  /** The input bar's local state: the text typed so far. */
  class InputBox {
    var message: string

    constructor ()
      ensures message == ""
    {
      message := "";
    }

    /** Typing into the field replaces the text. */
    method SetMessage(text: string)
      modifies this
      ensures message == text
    {
      message := text;
    }

    /** `handleSend`: returns what is passed to `onSend`, if anything. On a
        send the text is cleared; otherwise it is kept. */
    method HandleSend(disabled: bool) returns (sent: Option<string>)
      modifies this
      ensures sent.Some? <==> CanSend(old(message), disabled)
      ensures sent.Some? ==> sent.value == Trim(old(message))
      ensures sent.Some? ==> sent.value != [] && !IsWhitespace(sent.value[0])
                             && !IsWhitespace(sent.value[|sent.value| - 1])
      ensures message == if sent.Some? then "" else old(message)
    {
      if Trim(message) != [] && !disabled {
        sent := Some(Trim(message));
        message := "";
      } else {
        sent := None;
      }
    }

    /** `canSend` over the current text. */
    function CanSendNow(disabled: bool): (r: bool)
      reads this
      ensures r <==> !disabled && !AllWhitespace(message)
    {
      CanSend(message, disabled)
    }
  }
}
