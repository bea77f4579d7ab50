/** UsernameInputScreen: a three-letter name typed on a virtual keyboard
    whose cursor moves with W, A, S, D and whose key under the cursor is
    pressed with L. */
module Username {
  import opened Wrappers
  import opened KeyEvents
  import opened Geometry

  /** Letters a name holds. */
  const MAX_LENGTH := 3

  const BACK := "BACK"
  const ENTER := "ENTER"

  /** The keyboard, row by row. */
  const LAYOUT: seq<seq<string>> := [
    ["Q", "W", "E", "R", "T", "Y", "U", "I", "O", "P"],
    ["A", "S", "D", "F", "G", "H", "J", "K", "L"],
    ["Z", "X", "C", "V", "B", "N", "M"],
    [BACK, ENTER]
  ]

  /** A key of one capital letter. */
  predicate IsLetter(key: string)
  {
    |key| == 1 && 'A' <= key[0] <= 'Z'
  }

  /** A name of capital letters only. */
  predicate AllLetters(input: string)
  {
    forall i :: 0 <= i < |input| ==> 'A' <= input[i] <= 'Z'
  }

  /** What a key of the layout is: a letter, BACK or ENTER. */
  predicate IsKeyLabel(key: string)
  {
    IsLetter(key) || key == BACK || key == ENTER
  }

  /** Every key of the layout is a letter, BACK or ENTER. */
  lemma LayoutLabels(r: int, c: int)
    requires 0 <= r < |LAYOUT| && 0 <= c < |LAYOUT[r]|
    ensures IsKeyLabel(LAYOUT[r][c])
  {
    if r == 0 {
      assert LAYOUT[0] == ["Q", "W", "E", "R", "T", "Y", "U", "I", "O", "P"];
    } else if r == 1 {
      assert LAYOUT[1] == ["A", "S", "D", "F", "G", "H", "J", "K", "L"];
    } else if r == 2 {
      assert LAYOUT[2] == ["Z", "X", "C", "V", "B", "N", "M"];
    }
  }

  /** The position of the highlighted key. */
  datatype Cursor = Cursor(row: int, col: int)

  /** The cursor is on a key. */
  predicate OnKey(k: Cursor)
  {
    0 <= k.row < |LAYOUT| && 0 <= k.col < |LAYOUT[k.row]|
  }

  /** moveUp: one row up unless on the top row; the column is clamped to the
      new row's last key. */
  function Up(k: Cursor): (u: Cursor)
    requires OnKey(k)
    ensures OnKey(u) && u.col <= k.col
    ensures if k.row > 0 then u.row == k.row - 1 else u == k
    ensures u.col < k.col ==> u.col == |LAYOUT[u.row]| - 1
  {
    if k.row > 0 then Cursor(k.row - 1, Min(k.col, |LAYOUT[k.row - 1]| - 1)) else k
  }

  /** moveDown: one row down unless on the bottom row; the column is clamped
      to the new row's last key. */
  function Down(k: Cursor): (d: Cursor)
    requires OnKey(k)
    ensures OnKey(d) && d.col <= k.col
    ensures if k.row < |LAYOUT| - 1 then d.row == k.row + 1 else d == k
    ensures d.col < k.col ==> d.col == |LAYOUT[d.row]| - 1
  {
    if k.row < |LAYOUT| - 1 then Cursor(k.row + 1, Min(k.col, |LAYOUT[k.row + 1]| - 1)) else k
  }

  /** moveLeft: one key left unless on the first key of the row. */
  function Left(k: Cursor): (l: Cursor)
    requires OnKey(k)
    ensures OnKey(l) && l.row == k.row
    ensures if k.col > 0 then l.col == k.col - 1 else l == k
  {
    if k.col > 0 then Cursor(k.row, k.col - 1) else k
  }

  /** moveRight: one key right unless on the last key of the row. */
  function Right(k: Cursor): (r: Cursor)
    requires OnKey(k)
    ensures OnKey(r) && r.row == k.row
    ensures if k.col < |LAYOUT[k.row]| - 1 then r.col == k.col + 1 else r == k
  {
    if k.col < |LAYOUT[k.row]| - 1 then Cursor(k.row, k.col + 1) else k
  }

  /** Left undoes Right away from the row's end, and Right undoes Left away
      from its start. */
  lemma LeftRightInverse(k: Cursor)
    requires OnKey(k)
    ensures k.col < |LAYOUT[k.row]| - 1 ==> Left(Right(k)) == k
    ensures k.col > 0 ==> Right(Left(k)) == k
  {
  }

  /** Up undoes Down, and Down undoes Up, when the column exists in the row
      passed through. */
  lemma UpDownInverse(k: Cursor)
    requires OnKey(k)
    ensures k.row < |LAYOUT| - 1 && k.col < |LAYOUT[k.row + 1]| ==> Up(Down(k)) == k
    ensures k.row > 0 && k.col < |LAYOUT[k.row - 1]| ==> Down(Up(k)) == k
  {
  }

  /** The name after handleSelection with key under the cursor: BACK
      drops the last letter if there is one, ENTER leaves the name as it is,
      and a letter is appended while there is room. */
  function Edit(key: string, input: string): (r: string)
    requires IsKeyLabel(key)
    ensures |input| <= MAX_LENGTH ==> |r| <= MAX_LENGTH
    ensures AllLetters(input) ==> AllLetters(r)
    ensures |r| < |input| ==> key == BACK && r == input[..|input| - 1]
    ensures |r| > |input| ==> IsLetter(key) && r == input + key
    ensures |r| == |input| ==> r == input
    ensures key == BACK && |input| > 0 ==> r == input[..|input| - 1]
    ensures IsLetter(key) && |input| < MAX_LENGTH ==> r == input + key
    ensures key == ENTER || (key == BACK && |input| == 0) || (IsLetter(key) && |input| >= MAX_LENGTH) ==> r == input
  {
    if key == BACK then
      if |input| > 0 then input[..|input| - 1] else input
    else if key == ENTER then input
    else if |input| < MAX_LENGTH then input + key
    else input
  }

  /** BACK takes away the letter just added. */
  lemma BackUndoesLetter(key: string, input: string)
    requires IsLetter(key) && |input| < MAX_LENGTH
    ensures Edit(BACK, Edit(key, input)) == input
  {
    assert (input + key)[..|input|] == input;
  }

  /** The name handed to the listener by handleSelection: the whole name,
      when ENTER is pressed on a full name, and nothing otherwise. */
  function Chosen(key: string, input: string): (r: Option<string>)
    ensures r.Some? <==> key == ENTER && |input| == MAX_LENGTH
    ensures r.Some? ==> r.value == input
  {
    if key == ENTER && |input| == MAX_LENGTH then Some(input) else None
  }

  /** The keyboard and its cursor. */
  class VirtualKeyboard {
    var row: int
    var col: int

    ghost predicate Valid()
      reads this
    {
      OnKey(Cursor(row, col))
    }

    constructor ()
      ensures Valid() && row == 0 && col == 0
    {
      row := 0;
      col := 0;
    }

    /** getSelectedKey: the key under the cursor, always a letter, BACK or
        ENTER. */
    function SelectedKey(): (key: string)
      reads this
      requires Valid()
      ensures IsKeyLabel(key)
    {
      LayoutLabels(row, col);
      LAYOUT[row][col]
    }

    method MoveUp()
      requires Valid()
      modifies this
      ensures Valid() && Cursor(row, col) == Up(old(Cursor(row, col)))
    {
      if row > 0 {
        row := row - 1;
        col := Min(col, |LAYOUT[row]| - 1);
      }
    }

    method MoveDown()
      requires Valid()
      modifies this
      ensures Valid() && Cursor(row, col) == Down(old(Cursor(row, col)))
    {
      if row < |LAYOUT| - 1 {
        row := row + 1;
        col := Min(col, |LAYOUT[row]| - 1);
      }
    }

    method MoveLeft()
      requires Valid()
      modifies this
      ensures Valid() && Cursor(row, col) == Left(old(Cursor(row, col)))
    {
      if col > 0 {
        col := col - 1;
      }
    }

    method MoveRight()
      requires Valid()
      modifies this
      ensures Valid() && Cursor(row, col) == Right(old(Cursor(row, col)))
    {
      if col < |LAYOUT[row]| - 1 {
        col := col + 1;
      }
    }
  }

  /** The screen: the keyboard and the name typed so far. The listener
      call is the returned name. */
  class UsernameInputScreen {
    const keyboard: VirtualKeyboard
    var input: string

    /** The cursor is on a key, and the name has at most three letters. */
    ghost predicate Valid()
      reads this, keyboard
    {
      keyboard.Valid() && |input| <= MAX_LENGTH && AllLetters(input)
    }

    constructor ()
      ensures Valid() && fresh(keyboard) && input == []
      ensures keyboard.row == 0 && keyboard.col == 0
    {
      keyboard := new VirtualKeyboard();
      input := [];
    }

    /** handleSelection: the name changes as Edit says and the listener is
        called as Chosen says, for the key under the cursor. */
    method HandleSelection() returns (selected: Option<string>)
      requires Valid()
      modifies this`input
      ensures Valid()
      ensures input == Edit(keyboard.SelectedKey(), old(input))
      ensures selected == Chosen(keyboard.SelectedKey(), old(input))
    {
      var key := keyboard.SelectedKey();
      selected := None;
      if key == BACK {
        if |input| > 0 {
          input := input[..|input| - 1];
        }
      } else if key == ENTER {
        if |input| == MAX_LENGTH {
          selected := Some(input);
        }
      } else {
        if |input| < MAX_LENGTH {
          input := input + key;
        }
      }
    }

    /** keyPressed: W, S, A and D move the cursor, L presses the key under
        it, and every other key does nothing. */
    method KeyPressed(code: int) returns (selected: Option<string>)
      requires Valid()
      modifies keyboard, this`input
      ensures Valid()
      ensures var k := old(Cursor(keyboard.row, keyboard.col));
              Cursor(keyboard.row, keyboard.col) ==
                if code == KEY_W then Up(k)
                else if code == KEY_S then Down(k)
                else if code == KEY_A then Left(k)
                else if code == KEY_D then Right(k)
                else k
      ensures code == KEY_L ==> input == Edit(keyboard.SelectedKey(), old(input)) &&
                                selected == Chosen(keyboard.SelectedKey(), old(input))
      ensures code != KEY_L ==> input == old(input) && selected == None
    {
      selected := None;
      if code == KEY_W {
        keyboard.MoveUp();
      } else if code == KEY_S {
        keyboard.MoveDown();
      } else if code == KEY_A {
        keyboard.MoveLeft();
      } else if code == KEY_D {
        keyboard.MoveRight();
      } else if code == KEY_L {
        selected := HandleSelection();
      }
    }
  }
}
