/**
 * The inline keyboard attached to a broadcast poll message
 * (`get_polls_inline_button`): one button per poll option, cut into
 * consecutive rows of at most three buttons.
 */
module Keyboard {

  /** An inline button: the label shown and the callback payload sent back on a press. */
  datatype Button = Button(text: string, callbackData: string)

  /** An inline keyboard markup: rows of buttons, top to bottom. */
  type Markup = seq<seq<Button>>

  /** Number of buttons per keyboard row. */
  const RowWidth: nat := 3

  function Min(a: int, b: int): int {
    if a <= b then a else b
  }

  /** One button per option, in option order; label and payload are both the option. */
  function OptionButtons(polls: seq<string>): (buttons: seq<Button>)
    ensures |buttons| == |polls|
    ensures forall i :: 0 <= i < |polls| ==> buttons[i] == Button(polls[i], polls[i])
  {
    seq(|polls|, i requires 0 <= i < |polls| => Button(polls[i], polls[i]))
  }

  /** The rows `buttons[i : i + 3]` for `i` in `range(0, len(buttons), 3)`. */
  function Rows(buttons: seq<Button>): Markup {
    seq((|buttons| + RowWidth - 1) / RowWidth,
        k requires 0 <= k < (|buttons| + RowWidth - 1) / RowWidth =>
          buttons[k * RowWidth .. Min(k * RowWidth + RowWidth, |buttons|)])
  }

  /** The keyboard built from the option list fetched from the backend. */
  function PollsKeyboard(polls: seq<string>): Markup {
    Rows(OptionButtons(polls))
  }

  /** The buttons of a keyboard read row by row. */
  function Flatten(rows: Markup): seq<Button> {
    if |rows| == 0 then [] else rows[0] + Flatten(rows[1..])
  }

  lemma {:induction false} FlattenAppend(rows: Markup, row: seq<Button>)
    ensures Flatten(rows + [row]) == Flatten(rows) + row
    decreases |rows|
  {
    if |rows| == 0 {
      assert rows + [row] == [row];
    } else {
      assert (rows + [row])[1..] == rows[1..] + [row];
      FlattenAppend(rows[1..], row);
    }
  }

  /** The first `k` rows hold exactly the first `min(3k, n)` buttons. */
  lemma {:induction false} FlattenPrefix(buttons: seq<Button>, k: nat)
    requires k <= |Rows(buttons)|
    ensures Flatten(Rows(buttons)[..k]) == buttons[..Min(k * RowWidth, |buttons|)]
    decreases k
  {
    var rows := Rows(buttons);
    if k == 0 {
      assert rows[..0] == [];
    } else {
      FlattenPrefix(buttons, k - 1);
      assert rows[..k] == rows[..k - 1] + [rows[k - 1]];
      FlattenAppend(rows[..k - 1], rows[k - 1]);
      var lo := (k - 1) * RowWidth;
      assert buttons[..Min(k * RowWidth, |buttons|)]
          == buttons[..lo] + buttons[lo .. Min(k * RowWidth, |buttons|)];
    }
  }

  /**
   * The keyboard for `polls`: read row by row it is one button per option in
   * option order, each button's label and payload equal to that option; it
   * has ceil(n/3) rows, every row but the last holds three buttons and the
   * last holds one to three.
   */
  lemma PollsKeyboardCorrect(polls: seq<string>)
    ensures Flatten(PollsKeyboard(polls)) == OptionButtons(polls)
    ensures |PollsKeyboard(polls)| == (|polls| + 2) / 3
    ensures forall k :: 0 <= k < |PollsKeyboard(polls)| - 1 ==> |PollsKeyboard(polls)[k]| == 3
    ensures |PollsKeyboard(polls)| > 0 ==> 1 <= |PollsKeyboard(polls)[|PollsKeyboard(polls)| - 1]| <= 3
    ensures forall r, j :: 0 <= r < |PollsKeyboard(polls)| && 0 <= j < |PollsKeyboard(polls)[r]| ==>
      PollsKeyboard(polls)[r][j] == Button(polls[3 * r + j], polls[3 * r + j])
  {
    var buttons := OptionButtons(polls);
    var rows := Rows(buttons);
    FlattenPrefix(buttons, |rows|);
    assert rows[..|rows|] == rows;
  }
}
