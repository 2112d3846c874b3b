/** Text as words separated by single spaces: how the displayed texts are
    put together, and how they split apart again. */
module Words {

  predicate NoSpace(w: string)
  {
    forall k :: 0 <= k < |w| ==> w[k] != ' '
  }

  /** The words joined by one space each. */
  function Join(ws: seq<string>): string
  {
    if |ws| == 0 then ""
    else if |ws| == 1 then ws[0]
    else ws[0] + " " + Join(ws[1..])
  }

  /** Index of the first space, or the length when there is none. */
  function FirstSpace(s: string): (i: nat)
    ensures i <= |s| && NoSpace(s[..i]) && (i < |s| ==> s[i] == ' ')
  {
    if s == [] || s[0] == ' ' then 0
    else
      var i := 1 + FirstSpace(s[1..]);
      assert s[..i] == [s[0]] + s[1..][..i - 1];
      i
  }

  /** The pieces of `s` between spaces. */
  function Split(s: string): (ws: seq<string>)
    ensures |ws| >= 1
    decreases |s|
  {
    var i := FirstSpace(s);
    if i == |s| then [s] else [s[..i]] + Split(s[i + 1..])
  }

  lemma FirstSpaceOfWord(w: string, rest: string)
    requires NoSpace(w)
    ensures FirstSpace(w + " " + rest) == |w|
  {
    var s := w + " " + rest;
    var i := FirstSpace(s);
    assert forall j :: 0 <= j < |w| ==> s[j] == w[j];
    assert s[|w|] == ' ';
  }

  /** Joining words that hold no space, and splitting the result, gives the words back. */
  lemma {:induction false} SplitJoin(ws: seq<string>)
    requires |ws| >= 1
    requires forall k :: 0 <= k < |ws| ==> NoSpace(ws[k])
    ensures Split(Join(ws)) == ws
    decreases |ws|
  {
    if |ws| == 1 {
      assert FirstSpace(ws[0]) == |ws[0]| by {
        assert ws[0][..FirstSpace(ws[0])] == ws[0][..FirstSpace(ws[0])];
      }
    } else {
      var s := Join(ws);
      var rest := Join(ws[1..]);
      assert s == ws[0] + " " + rest;
      FirstSpaceOfWord(ws[0], rest);
      assert s[..|ws[0]|] == ws[0];
      assert s[|ws[0]| + 1..] == rest;
      SplitJoin(ws[1..]);
      assert ws == [ws[0]] + ws[1..];
    }
  }
}
