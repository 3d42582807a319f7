/** Where the lines of a file begin. */
module Lines {
  import opened Records

  const NEWLINE: Byte := 10

  /** The first line start at or after x; the end of the file counts as one. */
  function NextStart(file: seq<Byte>, x: nat): (r: nat)
    ensures r <= |file| && (x <= |file| ==> x <= r)
    decreases |file| - x
  {
    if x == 0 then 0
    else if x >= |file| then |file|
    else if file[x - 1] == NEWLINE then x
    else NextStart(file, x + 1)
  }

  predicate IsStart(file: seq<Byte>, x: nat) {
    x == 0 || x >= |file| || file[x - 1] == NEWLINE
  }

  lemma {:induction false} NextStartFirst(file: seq<Byte>, x: nat, y: nat)
    requires x <= y <= |file| && IsStart(file, y)
    ensures NextStart(file, x) <= y
    decreases |file| - x
  {
    if x != 0 && x < |file| && file[x - 1] != NEWLINE { NextStartFirst(file, x + 1, y); }
  }

  lemma {:induction false} NextStartIs(file: seq<Byte>, x: nat)
    ensures IsStart(file, NextStart(file, x))
    decreases |file| - x
  {
    if x != 0 && x < |file| && file[x - 1] != NEWLINE { NextStartIs(file, x + 1); }
  }

  lemma NextStartMonotone(file: seq<Byte>, x: nat, y: nat)
    requires x <= y <= |file|
    ensures NextStart(file, x) <= NextStart(file, y)
  {
    NextStartIs(file, y);
    NextStartFirst(file, x, NextStart(file, y));
  }

  /** If no line starts in [x, y) then x and y have the same next start. */
  lemma NextStartSkips(file: seq<Byte>, x: nat, y: nat)
    requires x <= y <= NextStart(file, x) && x <= |file|
    ensures NextStart(file, y) == NextStart(file, x)
  {
    NextStartIs(file, x);
    NextStartFirst(file, y, NextStart(file, x));
    NextStartMonotone(file, x, y);
  }

  /** Line starts seen through a window of the file: the same ones, cut off at the window's end. */
  lemma {:induction false} NextStartInWindow(file: seq<Byte>, start: nat, end: nat, x: nat)
    requires start <= end <= |file| && 0 < x <= end - start
    ensures start + NextStart(file[start..end], x) == if NextStart(file, start + x) < end then NextStart(file, start + x) else end
    decreases end - start - x
  {
    var raw := file[start..end];
    if x < |raw| {
      assert raw[x - 1] == file[start + x - 1];
      if raw[x - 1] != NEWLINE { NextStartInWindow(file, start, end, x + 1); }
    }
  }

  predicate HasNewline(s: seq<Byte>) { NEWLINE in s }

  lemma {:induction false} NewlineFound(s: seq<Byte>, x: nat)
    requires 0 < x <= |s|
    ensures HasNewline(s[x - 1..]) <==> s[NextStart(s, x) - 1] == NEWLINE
    decreases |s| - x
  {
    if s[x - 1] != NEWLINE && x < |s| {
      NewlineFound(s, x + 1);
      assert s[x - 1..] == [s[x - 1]] + s[x..];
    } else if s[x - 1] == NEWLINE {
      assert s[x - 1..][0] == NEWLINE;
      assert x >= |s| ==> NextStart(s, x) == x;
    } else {
      assert s[x - 1..] == [s[x - 1]];
    }
  }
}
