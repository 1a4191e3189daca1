/**
 * The pickup-code keypad: a buffer of at most four decimal digits edited by
 * a 3x3 keypad of the digits 1..9, a last row of clear / 0 / delete, and a
 * confirm button that sends "PICKUP:" followed by the code through the
 * connection coordinator.
 */
module PickupCode {
  import opened Wrappers
  import opened Text
  import opened ConnectionManager

  const CodeLength: nat := 4
  const PickupPrefix: string := "PICKUP:"

  /** What the buffer may hold: at most four decimal digits. */
  predicate ValidCode(code: string)
  {
    |code| <= CodeLength && AllDigits(code)
  }

  /** The number printed on the key in row `row` and column `col` of the 3x3 block. */
  function KeyNumber(row: nat, col: nat): nat
  {
    row * 3 + col
  }

  predicate IsKeypadPosition(row: nat, col: nat)
  {
    row < 3 && 1 <= col <= 3
  }

  /** A digit key appends its text while the code is shorter than four. */
  function PressKey(code: string, key: string): string
  {
    if |code| < CodeLength then code + key else code
  }

  /** The delete key drops the last character of a non-empty code. */
  function DeleteLast(code: string): string
  {
    if |code| > 0 then code[..|code| - 1] else code
  }

  /** The message the confirm button sends, if any. */
  function ConfirmMessage(code: string, connected: bool): Option<string>
  {
    if |code| == CodeLength && connected then Some(PickupPrefix + code) else None
  }

  /** The content of digit box `i`: the code's `i`-th digit while the box is active. */
  function DigitBox(code: string, i: nat): Option<char>
    requires i < CodeLength
  {
    if i < |code| then Some(code[i]) else None
  }

  /** The digits the boxes `i`, ..., 3 show, left to right. */
  function ShownFrom(code: string, i: nat): string
    requires i <= CodeLength
    decreases CodeLength - i
  {
    if i == CodeLength then []
    else
      (match DigitBox(code, i)
       case Some(c) => [c]
       case None => [])
      + ShownFrom(code, i + 1)
  }

  // ---------------------------------------------------------------------
  // Properties

  /** The keypad position of the number `n` in 1..9: the inverse of `KeyNumber`. */
  function KeyPosition(n: nat): (nat, nat)
    requires 1 <= n <= 9
  {
    ((n - 1) / 3, (n - 1) % 3 + 1)
  }

  /** Every key of the 3x3 block carries a number in 1..9, and that number leads back to the key. */
  lemma KeyNumberInRange(row: nat, col: nat)
    requires IsKeypadPosition(row, col)
    ensures 1 <= KeyNumber(row, col) <= 9 && KeyPosition(KeyNumber(row, col)) == (row, col)
  {
    if row == 0 {
    } else if row == 1 {
    } else {
      assert row == 2;
    }
  }

  /** Every number in 1..9 is on exactly the key `KeyPosition` names. */
  lemma KeyPositionInverse(n: nat)
    requires 1 <= n <= 9
    ensures IsKeypadPosition(KeyPosition(n).0, KeyPosition(n).1)
    ensures KeyNumber(KeyPosition(n).0, KeyPosition(n).1) == n
  {
    if n <= 3 {
      assert KeyPosition(n) == (0, n);
    } else if n <= 6 {
      assert KeyPosition(n) == (1, n - 3);
    } else {
      assert KeyPosition(n) == (2, n - 6);
    }
  }

  /** A number below ten prints as its single digit. */
  lemma SingleDigitDecimal(n: nat)
    requires n < 10
    ensures Decimal(n) == [DigitChar(n)]
  {
  }

  /**
   * Pressing a digit key keeps the code at most four digits long; below four
   * it appends exactly that digit, at four it changes nothing.
   */
  lemma PressKeepsCodeValid(code: string, digit: nat)
    requires ValidCode(code) && digit < 10
    ensures var r := PressKey(code, Decimal(digit));
      && ValidCode(r)
      && (|code| < CodeLength ==> r == code + [DigitChar(digit)])
      && (|code| == CodeLength ==> r == code)
  {
  }

  /**
   * Delete drops exactly the last digit of a non-empty code, keeps the code
   * valid, and undoes a digit press that was accepted.
   */
  lemma DeleteUndoesPress(code: string, c: char)
    requires ValidCode(code) && IsDigit(c)
    ensures ValidCode(DeleteLast(code))
    ensures |code| > 0 ==> DeleteLast(code) + [code[|code| - 1]] == code
    ensures code == "" ==> DeleteLast(code) == ""
    ensures |code| < CodeLength ==> DeleteLast(PressKey(code, [c])) == code
  {
    if |code| < CodeLength {
      assert (code + [c])[..|code|] == code;
    }
  }

  /**
   * Confirm sends exactly "PICKUP:" followed by the code, only when the code
   * is complete and the client is connected; the message is never blank, so
   * the coordinator always forwards it, and the code can be read back from it.
   */
  lemma ConfirmSendsPickup(code: string, connected: bool)
    ensures ConfirmMessage(code, connected).Some? <==> |code| == CodeLength && connected
    ensures ConfirmMessage(code, connected).Some? ==>
      var m := ConfirmMessage(code, connected).value;
      && !IsBlank(m)
      && m[..|PickupPrefix|] == PickupPrefix && m[|PickupPrefix|..] == code
  {
    if |code| == CodeLength && connected {
      NotBlankWhenFirstIsLetter(PickupPrefix + code);
    }
  }

  /** The boxes from `i` on show the code's digits from `i` on, in order. */
  lemma {:induction false} ShownFromIsSuffix(code: string, i: nat)
    requires ValidCode(code) && i <= CodeLength
    decreases CodeLength - i
    ensures ShownFrom(code, i) == if i <= |code| then code[i..] else []
  {
    if i < CodeLength {
      ShownFromIsSuffix(code, i + 1);
      if i < |code| {
        assert code[i..] == [code[i]] + code[i + 1..];
      }
    }
  }

  /** Box `i` is active exactly when `i` is below the code's length, and the four boxes show the code. */
  lemma BoxesShowCode(code: string)
    requires ValidCode(code)
    ensures forall i :: 0 <= i < CodeLength ==> (DigitBox(code, i).Some? <==> i < |code|)
    ensures ShownFrom(code, 0) == code
  {
    ShownFromIsSuffix(code, 0);
  }

  // ---------------------------------------------------------------------
  // The screen's buffer

  class PickupCodeScreen {
    var pickupCode: string
    const manager: TcpConnectionManager

    ghost predicate Valid()
      reads this, manager, manager.state
    {
      ValidCode(pickupCode) && manager.Valid()
    }

    constructor (manager: TcpConnectionManager)
      requires manager.Valid()
      ensures Valid() && this.manager == manager && pickupCode == ""
    {
      this.manager := manager;
      pickupCode := "";
    }

    /** The confirm button is enabled exactly when it would send. */
    function ConfirmEnabled(): (enabled: bool)
      reads this, manager, manager.state
      ensures enabled <==> ConfirmMessage(pickupCode, manager.state.isConnected).Some?
    {
      |pickupCode| == CodeLength && manager.state.isConnected
    }

    method PressNumberKey(row: nat, col: nat)
      requires Valid() && IsKeypadPosition(row, col)
      modifies this
      ensures Valid()
      ensures pickupCode == PressKey(old(pickupCode), Decimal(KeyNumber(row, col)))
    {
      var number := KeyNumber(row, col);
      PressKeepsCodeValid(pickupCode, number);
      if |pickupCode| < CodeLength {
        pickupCode := pickupCode + Decimal(number);
      }
    }

    method PressZeroKey()
      requires Valid()
      modifies this
      ensures Valid()
      ensures pickupCode == PressKey(old(pickupCode), "0")
    {
      PressKeepsCodeValid(pickupCode, 0);
      if |pickupCode| < CodeLength {
        pickupCode := pickupCode + "0";
      }
    }

    method PressClear()
      requires Valid()
      modifies this
      ensures Valid() && pickupCode == ""
    {
      pickupCode := "";
    }

    method PressDelete()
      requires Valid()
      modifies this
      ensures Valid()
      ensures pickupCode == DeleteLast(old(pickupCode))
    {
      DeleteUndoesPress(pickupCode, '0');
      if |pickupCode| > 0 {
        pickupCode := pickupCode[..|pickupCode| - 1];
      }
    }

    method PressConfirm(sendOk: bool)
      requires Valid()
      modifies manager, manager.state
      ensures Valid() && pickupCode == old(pickupCode)
      ensures var sent := ConfirmMessage(old(pickupCode), old(manager.state.isConnected));
        manager.View() == if sent.Some? then SendStep(old(manager.View()), sent.value, sendOk) else old(manager.View())
    {
      if |pickupCode| == CodeLength && manager.state.isConnected {
        manager.SendMessage(PickupPrefix + pickupCode, sendOk);
      }
    }
  }
}
