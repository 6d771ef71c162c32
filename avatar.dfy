// The initials shown by the avatar of Day_11/src/app/shared/avatar/avatar.ts:
// the name split on single spaces, empty parts dropped, the first
// character of the first two words, upper-cased.
module Avatar {

  /** `s.split(' ')`: the parts between single spaces, empty parts included. */
  function Split(s: string): (parts: seq<string>)
    ensures |parts| >= 1
    ensures forall k :: 0 <= k < |parts| ==> ' ' !in parts[k]
  {
    if s == [] then [""]
    else if s[0] == ' ' then [""] + Split(s[1..])
    else
      var rest := Split(s[1..]);
      [[s[0]] + rest[0]] + rest[1..]
  }

  /** `parts.join(' ')`, the inverse of `Split`. */
  function Join(parts: seq<string>): string
    requires |parts| >= 1
  {
    if |parts| == 1 then parts[0] else parts[0] + " " + Join(parts[1..])
  }

  /** `parts.filter(Boolean)`: keep the non-empty parts, in order. */
  function NonEmpty(parts: seq<string>): (r: seq<string>)
    ensures forall w :: w in r <==> w in parts && w != ""
    ensures |r| <= |parts|
  {
    if parts == [] then []
    else if parts[0] == "" then NonEmpty(parts[1..])
    else [parts[0]] + NonEmpty(parts[1..])
  }

  /** The words of a name: the non-empty parts of its split on spaces. */
  function Words(name: string): (r: seq<string>)
    ensures forall k :: 0 <= k < |r| ==> r[k] != "" && ' ' !in r[k]
  {
    var parts := Split(name);
    assert forall w :: w in parts ==> ' ' !in w;
    var words := NonEmpty(parts);
    assert forall k :: 0 <= k < |words| ==> words[k] in words;
    words
  }

  /** `parts[k]?.charAt(0) || ''`. */
  function FirstChar(parts: seq<string>, k: nat): (r: string)
    ensures |r| <= 1
  {
    if k < |parts| && parts[k] != "" then [parts[k][0]] else ""
  }

  /** `toUpperCase` on one character, for ASCII letters. */
  function ToUpper(c: char): (u: char)
    ensures !('a' <= u <= 'z')
    ensures 'a' <= c <= 'z' ==> u as int == c as int - 32
  {
    if 'a' <= c <= 'z' then (c as int - 32) as char else c
  }

  function Upper(s: string): (r: string)
    ensures |r| == |s|
    ensures forall k :: 0 <= k < |s| ==> r[k] == ToUpper(s[k])
  {
    if s == [] then [] else [ToUpper(s[0])] + Upper(s[1..])
  }

  /** The `initials` getter. */
  function Initials(name: string): (r: string)
    ensures |r| <= 2
    ensures forall k :: 0 <= k < |r| ==> !('a' <= r[k] <= 'z')
  {
    var parts := Words(name);
    var a := FirstChar(parts, 0);
    var b := FirstChar(parts, 1);
    Upper(a + b)
  }

  /** Joining the parts of a split gives back the original string. */
  lemma {:induction false} JoinSplit(s: string)
    ensures Join(Split(s)) == s
  {
    if s != [] {
      JoinSplit(s[1..]);
      var rest := Split(s[1..]);
      if s[0] == ' ' {
        assert ([""] + rest)[1..] == rest;
      } else if |rest| == 1 {
        assert s == [s[0]] + s[1..];
      } else {
        var parts := [[s[0]] + rest[0]] + rest[1..];
        assert parts[1..] == rest[1..];
        assert s == [s[0]] + s[1..];
      }
    }
  }

  /** Splitting the join of space-free parts gives back the parts. */
  lemma {:induction false} SplitJoin(parts: seq<string>)
    requires |parts| >= 1
    requires forall k :: 0 <= k < |parts| ==> ' ' !in parts[k]
    ensures Split(Join(parts)) == parts
  {
    if |parts| == 1 {
      SplitWord(parts[0]);
    } else {
      SplitJoin(parts[1..]);
      SplitConcat(parts[0], Join(parts[1..]));
      SplitWord(parts[0]);
    }
  }

  /** A string without spaces splits into itself. */
  lemma {:induction false} SplitWord(w: string)
    requires ' ' !in w
    ensures Split(w) == [w]
  {
    if w != [] {
      assert ' ' !in w[1..] by {
        forall k | 0 <= k < |w[1..]| ensures w[1..][k] != ' ' {
          assert w[1..][k] == w[k + 1];
        }
      }
      SplitWord(w[1..]);
      assert w == [w[0]] + w[1..];
    }
  }

  /** A space is a part boundary: splitting distributes over it. */
  lemma {:induction false} SplitConcat(a: string, b: string)
    ensures Split(a + " " + b) == Split(a) + Split(b)
  {
    if a == [] {
      assert a + " " + b == [' '] + b;
      assert ([' '] + b)[1..] == b;
    } else {
      var s := a + " " + b;
      assert s[0] == a[0] && s[1..] == a[1..] + " " + b;
      SplitConcat(a[1..], b);
      var ra := Split(a[1..]);
      if a[0] != ' ' {
        var r := Split(s[1..]);
        assert r == ra + Split(b);
        assert r[0] == ra[0];
        assert r[1..] == ra[1..] + Split(b);
      }
    }
  }

  lemma {:induction false} NonEmptyConcat(x: seq<string>, y: seq<string>)
    ensures NonEmpty(x + y) == NonEmpty(x) + NonEmpty(y)
  {
    if x == [] {
      assert x + y == y;
    } else {
      assert (x + y)[1..] == x[1..] + y;
      NonEmptyConcat(x[1..], y);
    }
  }

  /** Words are separated by any number of spaces. */
  lemma WordsConcat(a: string, b: string)
    ensures Words(a + " " + b) == Words(a) + Words(b)
  {
    SplitConcat(a, b);
    NonEmptyConcat(Split(a), Split(b));
  }

  /** A name has no words exactly when it is made only of spaces (or is empty). */
  lemma {:induction false} NoWordsIffBlank(name: string)
    ensures Words(name) == [] <==> forall k :: 0 <= k < |name| ==> name[k] == ' '
  {
    if name != [] {
      NoWordsIffBlank(name[1..]);
      var rest := Split(name[1..]);
      if name[0] == ' ' {
        assert ([""] + rest)[1..] == rest;
        assert (forall k :: 0 <= k < |name| ==> name[k] == ' ')
           <==> (forall k :: 0 <= k < |name[1..]| ==> name[1..][k] == ' ') by {
          forall k | 0 <= k < |name[1..]| ensures name[1..][k] == name[k + 1] { }
        }
      } else {
        assert Split(name)[0] != "";
        assert Words(name) != [];
      }
    }
  }

  /** An empty name, or one of spaces only, has no initials; any other name has some. */
  lemma BlankNameNoInitials(name: string)
    ensures Initials(name) == "" <==> forall k :: 0 <= k < |name| ==> name[k] == ' '
  {
    NoWordsIffBlank(name);
    var parts := Words(name);
    if parts != [] {
      assert parts[0] in parts;
      assert |FirstChar(parts, 0)| == 1;
    }
  }

  /** A single word gives its first character, upper-cased. */
  lemma SingleWordInitial(w: string)
    requires w != "" && ' ' !in w
    ensures Initials(w) == [ToUpper(w[0])]
  {
    SplitWord(w);
  }

  /** Two words give the first characters of both, upper-cased. */
  lemma TwoWordInitials(w1: string, w2: string)
    requires w1 != "" && ' ' !in w1 && w2 != "" && ' ' !in w2
    ensures Initials(w1 + " " + w2) == [ToUpper(w1[0]), ToUpper(w2[0])]
  {
    WordsConcat(w1, w2);
    SplitWord(w1);
    SplitWord(w2);
  }

  /** Once a name has two words, whatever follows is ignored. */
  lemma LaterWordsIgnored(name: string, more: string)
    requires |Words(name)| >= 2
    ensures Initials(name + " " + more) == Initials(name)
  {
    WordsConcat(name, more);
  }

  /** Doubling a space anywhere does not change the initials. */
  lemma RepeatedSpacesIgnored(a: string, b: string)
    ensures Initials(a + "  " + b) == Initials(a + " " + b)
  {
    WordsConcat(a, " " + b);
    WordsConcat("", b);
    WordsConcat(a, b);
    assert a + " " + (" " + b) == a + "  " + b;
    assert "" + " " + b == " " + b;
  }

  /** Leading and trailing spaces do not change the initials. */
  lemma OuterSpacesIgnored(name: string)
    ensures Initials(" " + name) == Initials(name)
    ensures Initials(name + " ") == Initials(name)
  {
    WordsConcat("", name);
    WordsConcat(name, "");
    assert "" + " " + name == " " + name;
    assert name + " " + "" == name + " ";
  }
}
