/**
 How the confirmation prompt reads the conference number back to the
 caller: the digit string split into characters and joined with single
 spaces, so that the speech engine says each digit on its own.
 */
module SpokenDigits {

  /** `digits.toString().split('').join(' ')`. */
  function ReadBack(s: string): (r: string)
    ensures |r| == if s == [] then 0 else 2 * |s| - 1
    ensures forall j :: 0 <= j < |r| ==> r[j] == if j % 2 == 0 then s[j / 2] else ' '
  {
    if |s| <= 1 then s else [s[0], ' '] + ReadBack(s[1..])
  }

  /** The string with every space dropped. */
  function RemoveSpaces(t: string): (u: string)
    ensures ' ' !in u
    ensures |u| <= |t|
  {
    if t == [] then []
    else if t[0] == ' ' then RemoveSpaces(t[1..])
    else [t[0]] + RemoveSpaces(t[1..])
  }

  /** Dropping the spaces from the read-back text gives back the digits, for
      any digit string that holds no space itself (DTMF digits never do). */
  lemma {:induction false} RemoveSpacesUndoesReadBack(s: string)
    requires ' ' !in s
    ensures RemoveSpaces(ReadBack(s)) == s
  {
    if |s| <= 1 {
      if |s| == 1 {
        assert RemoveSpaces(s) == [s[0]] + RemoveSpaces(s[1..]);
      }
    } else {
      var tail := ReadBack(s[1..]);
      assert ' ' !in s[1..] by {
        forall i | 0 <= i < |s[1..]| ensures s[1..][i] != ' ' {
          assert s[1..][i] == s[i + 1];
        }
      }
      RemoveSpacesUndoesReadBack(s[1..]);
      var r := ReadBack(s);
      assert r == [s[0], ' '] + tail;
      assert r[1..] == [' '] + tail;
      assert r[1..][1..] == tail;
      calc {
        RemoveSpaces(r);
        [s[0]] + RemoveSpaces(r[1..]);
        [s[0]] + RemoveSpaces(tail);
        [s[0]] + s[1..];
        s;
      }
    }
  }

  /** The read-back of "1234" is "1 2 3 4". */
  lemma ReadBackOf1234()
    ensures ReadBack("1234") == "1 2 3 4"
  {
  }
}
