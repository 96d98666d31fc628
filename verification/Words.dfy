/** Strings as dotted words: the splitting, joining and searching that subject
    names, filters and routing keys are built from. */
module Words {

  const DOT := '.'

  /** Position of the first `c` in `s`, or -1. */
  function IndexOf(s: string, c: char): (i: int)
    ensures -1 <= i < |s|
    ensures i < 0 <==> c !in s
    ensures 0 <= i ==> s[i] == c && forall j :: 0 <= j < i ==> s[j] != c
  {
    if s == [] then -1
    else if s[0] == c then 0
    else
      var r := IndexOf(s[1..], c);
      if r < 0 then -1 else r + 1
  }

  /** The words of `s` between dots; a string without dots is one word. */
  function Split(s: string): (words: seq<string>)
    ensures |words| >= 1
    decreases |s|
  {
    var i := IndexOf(s, DOT);
    if i < 0 then [s] else [s[..i]] + Split(s[i + 1..])
  }

  function Join(words: seq<string>): string
    requires words != []
  {
    if |words| == 1 then words[0] else words[0] + [DOT] + Join(words[1..])
  }

  predicate DotFree(s: string) { DOT !in s }

  /** The first occurrence of `c` in `a + [c] + b` is right behind a `c`-free `a`. */
  lemma IndexOfPrefix(a: string, c: char, b: string)
    requires c !in a
    ensures IndexOf(a + [c] + b, c) == |a|
  {
    var s := a + [c] + b;
    assert s[|a|] == c;
    assert forall j :: 0 <= j < |a| ==> s[j] == a[j] && a[j] in a;
  }

  /** A dot-free head is exactly one word of the split. */
  lemma SplitPrefix(a: string, b: string)
    requires DotFree(a)
    ensures Split(a + [DOT] + b) == [a] + Split(b)
  {
    IndexOfPrefix(a, DOT, b);
    var s := a + [DOT] + b;
    assert s[..|a|] == a && s[|a| + 1..] == b;
  }

  lemma JoinCons(head: string, rest: seq<string>)
    requires rest != []
    ensures Join([head] + rest) == head + [DOT] + Join(rest)
  {
    assert ([head] + rest)[1..] == rest;
  }

  /** Splitting cuts off the word before the first dot. */
  lemma SplitAt(s: string, i: nat)
    requires IndexOf(s, DOT) == i
    ensures Split(s) == [s[..i]] + Split(s[i + 1..])
  {
  }

  lemma CutAt(s: string, i: nat)
    requires i < |s|
    ensures s[..i] + [s[i]] + s[i + 1..] == s
  {
  }

  /** Splitting loses nothing: joining the words gives the string back. */
  lemma {:induction false} JoinOfSplit(s: string)
    ensures Join(Split(s)) == s
    decreases |s|
  {
    var i := IndexOf(s, DOT);
    if i >= 0 {
      var head, tail := s[..i], s[i + 1..];
      var rest := Split(tail);
      JoinOfSplit(tail);
      CutAt(s, i);
      JoinCons(head, rest);
      SplitAt(s, i);
    }
  }

  /** Joining dot-free words and splitting again gives the same words. */
  lemma {:induction false} SplitOfJoin(words: seq<string>)
    requires words != []
    requires forall i :: 0 <= i < |words| ==> DotFree(words[i])
    ensures Split(Join(words)) == words
  {
    if |words| > 1 {
      SplitOfJoin(words[1..]);
      SplitPrefix(words[0], Join(words[1..]));
    }
  }

  lemma {:induction false} SplitWordsDotFree(s: string)
    ensures forall i :: 0 <= i < |Split(s)| ==> DotFree(Split(s)[i])
    decreases |s|
  {
    var i := IndexOf(s, DOT);
    if i >= 0 {
      SplitWordsDotFree(s[i + 1..]);
    }
  }
}
