/** Relative Windows paths, their case-folded keys, and region containment.

A path component is kept together with the two forms the program derives from it:
its one-codepoint uppercase folding, which gives entry identity, and its composed
Unicode form, which is only used to pair names that differ in normalization.
Both tables stay uninterpreted: nothing relates the three strings. */
module Paths {

  datatype Option<+T> = None | Some(value: T)

  datatype Name = Name(text: string, fold: string, form: string)

  type Path = seq<Name>
  type Key = seq<string>

  const Separator: char := '\\'

  /** The comparison key of a path: every component folded. */
  function Fold(path: Path): (key: Key)
    ensures |key| == |path|
    ensures forall i :: 0 <= i < |path| ==> key[i] == path[i].fold
  {
    seq(|path|, i requires 0 <= i < |path| => path[i].fold)
  }

  function Parent<T>(path: seq<T>): (parent: seq<T>)
    requires path != []
    ensures |parent| == |path| - 1 && parent < path
  {
    path[..|path| - 1]
  }

  /** Strictly beneath, component by component. */
  predicate Beneath<T(==)>(path: seq<T>, directory: seq<T>) {
    directory < path
  }

  predicate ValidComponent(c: string) {
    c != "" && Separator !in c
  }

  predicate ValidKey(key: Key) {
    key != [] && forall i :: 0 <= i < |key| ==> ValidComponent(key[i])
  }

  /** The key as the program stores it: components joined by the separator. */
  function KeyText(key: Key): string
    requires key != []
  {
    if |key| == 1 then key[0] else key[0] + [Separator] + KeyText(key[1..])
  }

  /** String-prefix containment, as planned regions are compared. */
  predicate SameOrDescendant(path: string, ancestor: string) {
    path == ancestor || ancestor + [Separator] <= path
  }

  lemma FoldParent(path: Path)
    requires path != []
    ensures Fold(Parent(path)) == Parent(Fold(path))
  {
  }

  lemma FoldPrefix(path: Path, n: nat)
    requires n <= |path|
    ensures Fold(path[..n]) == Fold(path)[..n]
  {
  }

  /** A separator-free head is cut off by the first separator. */
  lemma HeadIsUnique(c: string, d: string, rest: string, tail: string)
    requires Separator !in c && Separator !in d
    requires c + [Separator] + rest == d + [Separator] + tail
    ensures c == d && rest == tail
  {
    var s, t := c + [Separator] + rest, d + [Separator] + tail;
    assert s[|c|] == Separator && t[|d|] == Separator;
    assert forall i :: 0 <= i < |c| ==> s[i] == c[i] && c[i] in c;
    assert forall i :: 0 <= i < |d| ==> t[i] == d[i] && d[i] in d;
    assert |c| == |d|;
    assert c == s[..|c|] && d == t[..|d|];
    assert rest == s[|c| + 1..] && tail == t[|d| + 1..];
  }

  lemma PrefixMembers(s: string, t: string)
    ensures s <= t ==> forall c :: c in s ==> c in t
  {
    if s <= t {
      assert forall i :: 0 <= i < |s| ==> s[i] == t[i];
    }
  }

  lemma ComponentContainment(path: Key, ancestor: Key)
    requires ValidKey(path) && ValidKey(ancestor) && |ancestor| == 1
    ensures SameOrDescendant(KeyText(path), KeyText(ancestor)) <==> ancestor <= path
  {
    var c, p, text := ancestor[0], path[0], KeyText(path);
    assert ancestor <= path <==> c == p;
    if |path| == 1 {
      PrefixMembers(c + [Separator], p);
      assert Separator in c + [Separator];
    } else {
      var tail := KeyText(path[1..]);
      assert text == p + [Separator] + tail;
      assert text[|p|] == Separator;
      assert Separator in text;
      if c + [Separator] <= text {
        var rest := text[|c| + 1..];
        assert text == c + [Separator] + rest;
        HeadIsUnique(c, p, rest, tail);
      }
      if c == p {
        assert c + [Separator] <= text;
      }
    }
  }

  /** Containment of joined key texts is containment of component sequences:
      the text test never confuses `a\bc` with something beneath `a\b`. */
  lemma {:induction false} TextContainmentIsComponentwise(path: Key, ancestor: Key)
    requires ValidKey(path) && ValidKey(ancestor)
    ensures SameOrDescendant(KeyText(path), KeyText(ancestor)) <==> ancestor <= path
    decreases |ancestor|
  {
    var c, p := ancestor[0], path[0];
    var text := KeyText(path);
    if |ancestor| == 1 {
      ComponentContainment(path, ancestor);
    } else {
      var more := KeyText(ancestor[1..]);
      var whole := KeyText(ancestor);
      assert whole == c + [Separator] + more;
      if |path| == 1 {
        assert whole[|c|] == Separator && Separator in whole;
        PrefixMembers(whole, p);
        PrefixMembers(whole + [Separator], p);
        assert Separator in whole + [Separator];
      } else {
        var tail := KeyText(path[1..]);
        assert text == p + [Separator] + tail;
        TextContainmentIsComponentwise(path[1..], ancestor[1..]);
        assert ancestor <= path <==> c == p && ancestor[1..] <= path[1..] by {
          assert path == [p] + path[1..] && ancestor == [c] + ancestor[1..];
        }
        if SameOrDescendant(text, whole) {
          assert whole <= text;
          var rest := text[|whole|..];
          assert text == c + [Separator] + (more + rest);
          HeadIsUnique(c, p, more + rest, tail);
          assert SameOrDescendant(tail, more);
        }
        if c == p && SameOrDescendant(tail, more) {
          SamePrefixed(c + [Separator], tail, more);
        }
      }
    }
  }

  lemma SamePrefixed(head: string, path: string, ancestor: string)
    requires SameOrDescendant(path, ancestor)
    ensures SameOrDescendant(head + path, head + ancestor)
  {
    if path != ancestor {
      assert head + ancestor + [Separator] == head + (ancestor + [Separator]);
      assert head + (ancestor + [Separator]) <= head + path;
    }
  }
}
