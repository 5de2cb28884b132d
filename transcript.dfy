/**
 * The transcript both front ends build: `fullTranscription += text + ' '` for
 * each transcribed chunk in order. The older front end trims the result; the
 * newer one shows it as it is.
 */
module Transcript {
  import opened Common

  /** The progress bar after chunk `current` of `total`: `(current / total) * 100`, in percent. */
  function Progress(current: nat, total: nat): (p: real)
    ensures current <= total ==> 0.0 <= p <= 100.0
    ensures 0 < total ==> (p == 100.0 <==> current == total)
  {
    if total == 0 then 0.0 else (current as real / total as real) * 100.0
  }

  /** The accumulated transcript: every text followed by one space. */
  function Spaced(texts: seq<string>): (r: string)
    ensures |texts| > 0 ==> |r| > 0 && r[|r| - 1] == ' '
  {
    if texts == [] then "" else Spaced(texts[..|texts| - 1]) + texts[|texts| - 1] + " "
  }

  /** The texts separated by single spaces. */
  function Join(texts: seq<string>): string
  {
    if texts == [] then ""
    else if |texts| == 1 then texts[0]
    else Join(texts[..|texts| - 1]) + " " + texts[|texts| - 1]
  }

  lemma SpacedAppend(texts: seq<string>, text: string)
    ensures Spaced(texts + [text]) == Spaced(texts) + text + " "
  {
    assert (texts + [text])[..|texts|] == texts;
  }

  /** The accumulated transcript is the joined texts with one trailing space. */
  lemma {:induction false} SpacedIsJoin(texts: seq<string>)
    requires texts != []
    ensures Spaced(texts) == Join(texts) + " "
  {
    if |texts| > 1 {
      var init := texts[..|texts| - 1];
      SpacedIsJoin(init);
    } else {
      assert texts[..0] == [];
    }
  }

  /** The joined texts start with the first text and end with the last. */
  lemma {:induction false} JoinEnds(texts: seq<string>)
    requires texts != []
    ensures |Join(texts)| >= |texts[0]| && Join(texts)[..|texts[0]|] == texts[0]
    ensures |Join(texts)| >= |texts[|texts| - 1]|
    ensures Join(texts)[|Join(texts)| - |texts[|texts| - 1]|..] == texts[|texts| - 1]
  {
    if |texts| > 1 {
      var init := texts[..|texts| - 1];
      JoinEnds(init);
      assert init[0] == texts[0];
      var j := Join(init);
      assert Join(texts) == j + " " + texts[|texts| - 1];
      assert (j + " " + texts[|texts| - 1])[..|texts[0]|] == j[..|texts[0]|];
    }
  }

  lemma TrimStartKeeps(s: string)
    requires s != [] && !IsJsSpace(s[0])
    ensures TrimStart(s) == s
  {
  }

  lemma TrimEndDropsSpace(x: string)
    requires x != [] && !IsJsSpace(x[|x| - 1])
    ensures TrimEnd(x + " ") == x
  {
    TrimEndSpec(x);
    var s := x + " ";
    assert s[..|s| - 1] == x;
  }

  /**
   * When the first text starts and the last text ends with a character that
   * is not white space, trimming the accumulated transcript gives the texts
   * joined by single spaces: trim only removes the trailing space the loop
   * appended.
   */
  lemma TrimSpaced(texts: seq<string>)
    requires texts != []
    requires texts[0] != [] && !IsJsSpace(texts[0][0])
    requires var last := texts[|texts| - 1]; last != [] && !IsJsSpace(last[|last| - 1])
    ensures Trim(Spaced(texts)) == Join(texts)
  {
    SpacedIsJoin(texts);
    JoinEnds(texts);
    var j := Join(texts);
    var last := texts[|texts| - 1];
    assert j[0] == texts[0][0];
    assert j[|j| - 1] == last[|last| - 1];
    assert (j + " ")[0] == j[0];
    TrimStartKeeps(j + " ");
    TrimEndDropsSpace(j);
  }
}
