/** Grouping of query results into maximal runs of consecutive rows with the same key, as
    the log views do with the rows of one run (or one child process) ordered together. */
module Grouping {

  /** The groups laid end to end. */
  function Flatten<T>(groups: seq<seq<T>>): seq<T> {
    if groups == [] then [] else Flatten(groups[..|groups| - 1]) + groups[|groups| - 1]
  }

  /** `groups` splits `rows` into maximal runs of equal key: laid end to end they are the
      rows, in order; no group is empty; each group has a single key; and two adjacent groups
      have different keys. */
  ghost predicate IsGrouping<T, K>(groups: seq<seq<T>>, rows: seq<T>, key: T -> K) {
    Flatten(groups) == rows
    && (forall i :: 0 <= i < |groups| ==> |groups[i]| > 0)
    && (forall i, j :: 0 <= i < |groups| && 0 <= j < |groups[i]| ==> key(groups[i][j]) == key(groups[i][0]))
    && (forall i :: 0 < i < |groups| ==> key(groups[i][0]) != key(groups[i - 1][0]))
  }

  /** One row added to a grouping: it joins the last group when its key is that group's,
      and opens a new group otherwise. */
  function Push<T, K(==)>(groups: seq<seq<T>>, x: T, key: T -> K): seq<seq<T>> {
    if groups != [] && |groups[|groups| - 1]| > 0 && key(groups[|groups| - 1][0]) == key(x) then
      groups[..|groups| - 1] + [groups[|groups| - 1] + [x]]
    else groups + [[x]]
  }

  /** The grouping the log views build: the rows pushed one by one, in order. */
  function Group<T, K(==)>(rows: seq<T>, key: T -> K): seq<seq<T>> {
    if rows == [] then [] else Push(Group(rows[..|rows| - 1], key), rows[|rows| - 1], key)
  }

  /** One row added the way the log views add it: a new, empty group when the row's key is
      not the last key seen, then the row appended to the last group. `last` is the key of the
      last group, or, when there is no group yet, a key the row does not have. */
  method AppendGrouped<T, K(==)>(groups: seq<seq<T>>, last: K, x: T, key: T -> K)
    returns (groups': seq<seq<T>>, last': K)
    requires groups != [] ==> |groups[|groups| - 1]| > 0 && last == key(groups[|groups| - 1][0])
    requires groups == [] ==> last != key(x)
    ensures groups' == Push(groups, x, key)
    ensures groups' != [] && |groups'[|groups'| - 1]| > 0 && last' == key(groups'[|groups'| - 1][0]) == key(x)
  {
    if last != key(x) {
      groups' := groups + [[x]];
      last' := key(x);
    } else {
      var end := groups[|groups| - 1];
      groups' := groups[..|groups| - 1] + [end + [x]];
      last' := last;
      assert (end + [x])[0] == end[0];
    }
  }

  lemma FlattenAppend<T>(groups: seq<seq<T>>, g: seq<T>)
    ensures Flatten(groups + [g]) == Flatten(groups) + g
  {
    assert (groups + [g])[..|groups|] == groups;
  }

  /** Pushing a row keeps a grouping a grouping, of the rows with the new one at the end. */
  lemma PushKeepsGrouping<T, K>(groups: seq<seq<T>>, rows: seq<T>, x: T, key: T -> K)
    requires IsGrouping(groups, rows, key)
    ensures IsGrouping(Push(groups, x, key), rows + [x], key)
  {
    if groups != [] && key(groups[|groups| - 1][0]) == key(x) {
      JoinKeepsGrouping(groups, rows, x, key);
    } else {
      FlattenAppend(groups, [x]);
    }
  }

  /** A row with the last group's key joins that group, and the result is still a grouping. */
  lemma JoinKeepsGrouping<T, K>(groups: seq<seq<T>>, rows: seq<T>, x: T, key: T -> K)
    requires IsGrouping(groups, rows, key)
    requires groups != [] && key(groups[|groups| - 1][0]) == key(x)
    ensures IsGrouping(Push(groups, x, key), rows + [x], key)
  {
    var init := groups[..|groups| - 1];
    var last := groups[|groups| - 1];
    var p := init + [last + [x]];
    assert Push(groups, x, key) == p;
    assert Flatten(p) == rows + [x] by {
      assert groups == init + [last];
      FlattenAppend(init, last);
      FlattenAppend(init, last + [x]);
    }
    assert forall i :: 0 <= i < |init| ==> p[i] == groups[i];
    assert p[|init|][0] == last[0];
  }

  /** Group computes the grouping of its rows. */
  lemma {:induction false} GroupIsGrouping<T, K>(rows: seq<T>, key: T -> K)
    ensures IsGrouping(Group(rows, key), rows, key)
  {
    if rows != [] {
      var init := rows[..|rows| - 1];
      var prev := Group(init, key);
      assert Group(rows, key) == Push(prev, rows[|rows| - 1], key);
      assert rows == init + [rows[|rows| - 1]];
      GroupIsGrouping(init, key);
      PushKeepsGrouping(prev, init, rows[|rows| - 1], key);
    }
  }
}
