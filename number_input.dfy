/**
 * The text box of the numeric menu inputs. It decides, for each character
 * or pasted string the keyboard sends, whether to pass it on to the host's
 * text box unchanged or to drop it.
 *
 * The guard as written passes on what is NOT a digit; `ReceiveChar` and
 * `ReceiveText` model it so, and `ReceiveDigitChar` and `ReceiveDigitText`
 * are the guards a numeric box evidently needs.
 */
module Elements {
  import opened Wrappers

  /** The decimal digits '0' to '9'. */
  predicate IsDigit(c: char) {
    '0' <= c <= '9'
  }

  predicate AllDigits(s: string) {
    forall i :: 0 <= i < |s| ==> IsDigit(s[i])
  }

  /** A typed character as written: passed on, unchanged, exactly when it is not a digit. */
  function ReceiveChar(c: char): (forwarded: Option<char>)
    ensures forwarded.Some? <==> !IsDigit(c)
    ensures forwarded.Some? ==> forwarded.value == c
  {
    if !IsDigit(c) then Some(c) else None
  }

  /**
   * What happens to a pasted string: passed on whole, dropped, or an
   * index-out-of-range exception when the guard reads the first character
   * of an empty string.
   */
  datatype TextOutcome = Forwarded(text: string) | Dropped | IndexOutOfRange

  /**
   * A pasted string as written: passed on whole exactly when its first
   * character is not a digit; an empty string throws on the read of its
   * first character.
   */
  function ReceiveText(text: string): (r: TextOutcome)
    ensures r == IndexOutOfRange <==> text == []
    ensures r.Forwarded? <==> text != [] && !IsDigit(text[0])
    ensures r.Forwarded? ==> r.text == text
  {
    if text == [] then IndexOutOfRange
    else if !IsDigit(text[0]) then Forwarded(text)
    else Dropped
  }

  /** A one-character string is treated as that character typed. */
  lemma TextAgreesWithChar(c: char)
    ensures ReceiveText([c]).Forwarded? <==> ReceiveChar(c).Some?
    ensures ReceiveText([c]).Forwarded? ==> ReceiveText([c]).text == [ReceiveChar(c).value]
  {
  }

  /** As written, the numeric box drops the digit '7' and passes on the letter 'x'. */
  lemma CharGuardIsInverted()
    ensures ReceiveChar('7') == None
    ensures ReceiveChar('x') == Some('x')
  {
  }

  /** As written, "a1" is passed on with its digit, "1a" is dropped with its letter, and an empty paste throws. */
  lemma TextGuardReadsOnlyFirst()
    ensures ReceiveText("a1") == Forwarded("a1") && !AllDigits("a1")
    ensures ReceiveText("1a") == Dropped
    ensures ReceiveText("") == IndexOutOfRange
  {
    assert !IsDigit("a1"[0]);
  }

  /** A typed character as intended: passed on, unchanged, exactly when it is a digit. */
  function ReceiveDigitChar(c: char): (forwarded: Option<char>)
    ensures forwarded.Some? <==> IsDigit(c)
    ensures forwarded.Some? ==> forwarded.value == c
  {
    if IsDigit(c) then Some(c) else None
  }

  /** A pasted string as intended: passed on whole exactly when every character is a digit. */
  function ReceiveDigitText(text: string): (forwarded: Option<string>)
    ensures forwarded.Some? <==> AllDigits(text)
    ensures forwarded.Some? ==> forwarded.value == text
  {
    if forall i :: 0 <= i < |text| ==> IsDigit(text[i]) then Some(text) else None
  }

  /**
   * With the intended guards, a one-character string is treated as that
   * character typed, and whatever reaches the host's box is digits only.
   */
  lemma DigitGuardsAgree(c: char, text: string)
    ensures ReceiveDigitText([c]).Some? <==> ReceiveDigitChar(c).Some?
    ensures ReceiveDigitText(text).Some? ==> AllDigits(ReceiveDigitText(text).value)
    ensures ReceiveDigitChar('7') == Some('7') && ReceiveDigitChar('x') == None
    ensures ReceiveDigitText("a1") == None && ReceiveDigitText("12") == Some("12")
  {
    assert AllDigits([c]) <==> IsDigit(c) by {
      assert [c][0] == c;
    }
    assert !IsDigit("a1"[0]);
    assert AllDigits("12") by {
      assert IsDigit("12"[0]) && IsDigit("12"[1]);
    }
  }
}
