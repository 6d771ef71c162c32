// The change log of Day_12/src/app/child-3/child-3.ts: every time the
// `count` input changes, one line describing the change is pushed onto
// `changeLog`.
module ChangeLog {
  import opened Wrappers
  import opened NgChanges
  import opened JsText

  const PrevTag: string := "Count changed. Prev: "
  const CurrentTag: string := ", Current: "
  const FirstTag: string := ", First: "

  /** The line pushed for a change of `count`. */
  function ChangeEntry(c: SimpleChange<int>): string
  {
    PrevTag + (OptionalIntText(c.previousValue) + (CurrentTag + (IntText(c.currentValue) + (FirstTag + BoolText(c.firstChange)))))
  }

  /** Index of the first `ch` in `s`, or `|s|` when there is none. */
  function FirstIndex(s: string, ch: char): (i: nat)
    ensures i <= |s|
    ensures i < |s| ==> s[i] == ch
    ensures forall j :: 0 <= j < i ==> s[j] != ch
  {
    if s == [] then 0 else if s[0] == ch then 0 else 1 + FirstIndex(s[1..], ch)
  }

  predicate StartsWith(s: string, prefix: string)
  {
    |prefix| <= |s| && s[..|prefix|] == prefix
  }

  /** Reads a change back out of a log line; None when the line has another shape. */
  function ParseEntry(s: string): Option<SimpleChange<int>>
  {
    if !StartsWith(s, PrevTag) then None
    else
      var r1 := s[|PrevTag|..];
      var i := FirstIndex(r1, ',');
      var prevText, r2 := r1[..i], r1[i..];
      if !StartsWith(r2, CurrentTag) then None
      else
        var r3 := r2[|CurrentTag|..];
        var j := FirstIndex(r3, ',');
        var curText, r4 := r3[..j], r3[j..];
        if !StartsWith(r4, FirstTag) then None
        else
          var firstText := r4[|FirstTag|..];
          if !IsIntText(curText) || !(prevText == "undefined" || IsIntText(prevText))
             || !(firstText == "true" || firstText == "false")
          then None
          else
            var prev := if prevText == "undefined" then None else Some(ParseInt(prevText));
            Some(SimpleChange(prev, ParseInt(curText), firstText == "true"))
  }

  lemma FirstIndexAtBoundary(x: string, y: string, ch: char)
    requires ch !in x && |y| >= 1 && y[0] == ch
    ensures FirstIndex(x + y, ch) == |x|
  {
    assert (x + y)[|x|] == ch;
  }

  /** A log line records its change faithfully: the change can be read back from it. */
  lemma ChangeEntryRoundTrip(c: SimpleChange<int>)
    ensures ParseEntry(ChangeEntry(c)) == Some(c)
  {
    var a, b, f := OptionalIntText(c.previousValue), IntText(c.currentValue), BoolText(c.firstChange);
    var tail3 := FirstTag + f;
    var tail2 := b + tail3;
    var tail1 := CurrentTag + tail2;
    var s := ChangeEntry(c);
    assert s == PrevTag + (a + tail1);
    assert StartsWith(s, PrevTag);
    var r1 := s[|PrevTag|..];
    assert r1 == a + tail1;
    FirstIndexAtBoundary(a, tail1, ',');
    assert r1[..|a|] == a && r1[|a|..] == tail1;
    assert StartsWith(tail1, CurrentTag);
    var r3 := tail1[|CurrentTag|..];
    assert r3 == b + tail3;
    FirstIndexAtBoundary(b, tail3, ',');
    assert r3[..|b|] == b && r3[|b|..] == tail3;
    assert StartsWith(tail3, FirstTag);
    assert tail3[|FirstTag|..] == f;
    IntTextRoundTrip(c.currentValue);
    match c.previousValue {
      case None =>
      case Some(p) =>
        IntTextRoundTrip(p);
        assert a != "undefined" by {
          assert IsIntText(a);
          assert a[0] == '-' || IsDigit(a[0]);
        }
    }
  }

  /** Distinct changes give distinct log lines. */
  lemma ChangeEntryInjective(c: SimpleChange<int>, d: SimpleChange<int>)
    requires ChangeEntry(c) == ChangeEntry(d)
    ensures c == d
  {
    ChangeEntryRoundTrip(c);
    ChangeEntryRoundTrip(d);
  }

  /** The lines one `ngOnChanges` call pushes: one when `count` changed, none otherwise. */
  function NewEntries(changes: SimpleChanges<int>): (r: seq<string>)
    ensures |r| == if "count" in changes then 1 else 0
  {
    if "count" in changes then [ChangeEntry(changes["count"])] else []
  }

  /** ChildComponent3: the `count` input and the log of its changes. */
  class ChildComponent3 {
    var count: int
    var changeLog: seq<string>

    constructor ()
      ensures count == 0 && changeLog == []
    {
      count := 0;
      changeLog := [];
    }

    /** `ngOnChanges`: push a line for a `count` change; earlier lines stay as they are. */
    method NgOnChanges(changes: SimpleChanges<int>)
      modifies this
      ensures changeLog == old(changeLog) + NewEntries(changes)
      ensures changeLog[..|old(changeLog)|] == old(changeLog)
      ensures count == old(count)
    {
      if "count" in changes {
        var change := changes["count"];
        changeLog := changeLog + [ChangeEntry(change)];
      }
    }
  }
}
