/**
 * The PIN pad on the home screen: a buffer of at most four digits edited
 * by the digit, backspace and clear buttons, four boxes showing how many
 * digits are in, and the button that hands the PIN to the identity gate.
 */
module PinInput {
  import opened Types
  import opened Routes
  import opened Auth

  /** How many digits a PIN has. */
  const PinLength := 4

  predicate IsDigit(c: char) {
    '0' <= c <= '9'
  }

  /** The character a digit button appends. */
  function DigitChar(d: int): (c: char)
    requires 0 <= d <= 9
    ensures IsDigit(c) && c as int - '0' as int == d
  {
    ('0' as int + d) as char
  }

  class PinPad {
    var pin: string

    /** The buffer holds at most four characters, all of them digits. */
    ghost predicate Valid()
      reads this
    {
      |pin| <= PinLength && forall i :: 0 <= i < |pin| ==> IsDigit(pin[i])
    }

    constructor()
      ensures Valid() && pin == ""
    {
      pin := "";
    }

    /** A digit button: appends the digit while fewer than four are in, and does nothing once four are. */
    method PressDigit(d: int)
      requires Valid() && 0 <= d <= 9
      modifies this
      ensures Valid()
      ensures |old(pin)| < PinLength ==> pin == old(pin) + [DigitChar(d)]
      ensures |old(pin)| >= PinLength ==> pin == old(pin)
    {
      if |pin| < PinLength {
        pin := pin + [DigitChar(d)];
      }
    }

    /** The backspace button: drops the last digit; an empty buffer stays empty. */
    method Backspace()
      requires Valid()
      modifies this
      ensures Valid()
      ensures |old(pin)| > 0 ==> pin + [old(pin)[|old(pin)| - 1]] == old(pin)
      ensures |old(pin)| == 0 ==> pin == ""
    {
      if |pin| > 0 {
        pin := pin[..|pin| - 1];
      }
    }

    /** The clear button: empties the buffer. */
    method Clear()
      modifies this
      ensures Valid() && pin == ""
    {
      pin := "";
    }

    /** Whether box `index` is drawn filled: exactly when the buffer reaches past it, and then it hides a digit. */
    function Filled(index: int): (r: bool)
      reads this
      requires Valid()
      ensures 0 <= index ==> (r <==> index < |pin|)
      ensures r && index >= 0 ==> IsDigit(pin[index])
    {
      |pin| > index
    }

    /** The submit button is enabled exactly when all four boxes are filled and no login is running. */
    function CanSubmit(isLoading: bool): (r: bool)
      reads this
      requires Valid()
      ensures r <==> !isLoading && forall i :: 0 <= i < PinLength ==> Filled(i)
    {
      assert Filled(PinLength - 1) ==> |pin| == PinLength;
      |pin| == PinLength && !isLoading
    }

    /**
     * The submit button: hands the buffer to the PIN login. The buffer is
     * kept as it is, whether the login succeeds or not.
     */
    method Submit(session: Session) returns (route: Option<Route>)
      modifies session
      ensures pin == old(pin)
      ensures !session.isLoading
      ensures PinUser(session.users, pin).Some? ==>
                var u := PinUser(session.users, pin).value;
                session.user == Some(u) && session.storage == Saved(u) &&
                route == PinLanding(u.role)
      ensures PinUser(session.users, pin).None? ==>
                session.user == old(session.user) && session.storage == old(session.storage) && route == None
    {
      route := session.Login(pin);
    }
  }

  /** The characters of a series of digit presses. */
  function DigitChars(digits: seq<int>): (r: string)
    requires forall i :: 0 <= i < |digits| ==> 0 <= digits[i] <= 9
    ensures |r| == |digits| && forall i :: 0 <= i < |r| ==> IsDigit(r[i]) && r[i] as int - '0' as int == digits[i]
  {
    seq(|digits|, i requires 0 <= i < |digits| => DigitChar(digits[i]))
  }

  /**
   * A fresh pad after a series of digit presses holds the first four
   * digits pressed, in order; presses after the fourth are ignored, and
   * submitting is enabled once four are in.
   */
  method TypeDigits(digits: seq<int>) returns (pin: string, canSubmit: bool)
    requires forall i :: 0 <= i < |digits| ==> 0 <= digits[i] <= 9
    ensures |digits| <= PinLength ==> pin == DigitChars(digits)
    ensures |digits| > PinLength ==> pin == DigitChars(digits[..PinLength])
    ensures canSubmit <==> |digits| >= PinLength
  {
    var pad := new PinPad();
    var n := 0;
    while n < |digits|
      invariant 0 <= n <= |digits|
      invariant pad.Valid()
      invariant n <= PinLength ==> pad.pin == DigitChars(digits[..n])
      invariant n > PinLength ==> pad.pin == DigitChars(digits[..PinLength])
    {
      pad.PressDigit(digits[n]);
      assert digits[..n + 1] == digits[..n] + [digits[n]];
      n := n + 1;
    }
    assert digits[..|digits|] == digits;
    pin := pad.pin;
    canSubmit := pad.CanSubmit(false);
  }
}
