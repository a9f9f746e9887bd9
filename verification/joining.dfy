/**
 * Python's `", ".join(items)`, which the strength analyser uses to turn its
 * list of feedback messages into one line, and its inverse `s.split(", ")`.
 * Splitting undoes joining whenever no item contains a comma, which holds of
 * every message the analyser emits.
 */
module Joining {

  /** The separator the analyser joins its feedback with. */
  const SEPARATOR: string := ", "

  /** `", ".join(items)`: the items with the separator between neighbours. */
  function Join(items: seq<string>): (s: string)
    ensures items == [] ==> s == ""
    ensures |items| == 1 ==> s == items[0]
    ensures |items| > 0 ==> |s| >= |items[0]| && s[..|items[0]|] == items[0]
  {
    if |items| == 0 then ""
    else if |items| == 1 then items[0]
    else items[0] + SEPARATOR + Join(items[1..])
  }

  /** No item of `items` contains a comma. */
  predicate CommaFree(items: seq<string>)
  {
    forall i, j :: 0 <= i < |items| && 0 <= j < |items[i]| ==> items[i][j] != ','
  }

  /**
   * The index of the first occurrence of the separator in `s` at or after
   * `from`, or `|s|` when there is none.
   */
  function SeparatorIndex(s: string, from: nat): (k: nat)
    requires from <= |s|
    ensures from <= k <= |s|
    ensures k < |s| ==> k + 1 < |s| && s[k] == ',' && s[k + 1] == ' '
    ensures forall j :: from <= j < k && j + 1 < |s| ==> !(s[j] == ',' && s[j + 1] == ' ')
    decreases |s| - from
  {
    if from + 1 >= |s| then |s|
    else if s[from] == ',' && s[from + 1] == ' ' then from
    else SeparatorIndex(s, from + 1)
  }

  /** `s.split(", ")`: the pieces of `s` between occurrences of the separator. */
  function Split(s: string): (parts: seq<string>)
    ensures |parts| >= 1
    decreases |s|
  {
    var k := SeparatorIndex(s, 0);
    if k == |s| then [s] else [s[..k]] + Split(s[k + 2..])
  }

  /** The first separator in `a + ", " + rest` is the one just after `a` when `a` has no comma. */
  lemma SeparatorAfterFirstItem(a: string, rest: string)
    requires forall j :: 0 <= j < |a| ==> a[j] != ','
    ensures SeparatorIndex(a + SEPARATOR + rest, 0) == |a|
  {
    var s := a + SEPARATOR + rest;
    assert s[|a|] == ',' && s[|a| + 1] == ' ';
    assert forall j :: 0 <= j < |a| ==> s[j] == a[j];
  }

  /** Splitting a joined comma-free list of items gives back the items. */
  lemma {:induction false} SplitJoin(items: seq<string>)
    requires |items| >= 1
    requires CommaFree(items)
    ensures Split(Join(items)) == items
    decreases |items|
  {
    var a := items[0];
    if |items| == 1 {
      assert forall j :: 0 <= j < |a| ==> a[j] == items[0][j];
    } else {
      var rest := Join(items[1..]);
      var s := a + SEPARATOR + rest;
      assert forall j :: 0 <= j < |a| ==> a[j] != ',' by {
        forall j | 0 <= j < |a| ensures a[j] != ',' {
          assert a[j] == items[0][j];
        }
      }
      SeparatorAfterFirstItem(a, rest);
      assert s[..|a|] == a;
      assert s[|a| + 2..] == rest;
      assert CommaFree(items[1..]) by {
        forall i, j | 0 <= i < |items[1..]| && 0 <= j < |items[1..][i]|
          ensures items[1..][i][j] != ','
        {
          assert items[1..][i] == items[i + 1];
        }
      }
      SplitJoin(items[1..]);
      assert Split(s) == [a] + items[1..];
      assert [a] + items[1..] == items;
    }
  }
}
