/*
 * The parts of `pathlib.PurePath` the server uses: a path is its parent
 * directory and its final component `name`; `suffix` and `stem` split the
 * name at its last dot, as pathlib does.
 */
module Paths {

  datatype FilePath = FilePath(parent: string, name: string)

  /** `name.rfind(c)`: the last index holding `c`, or -1. */
  function RFind(name: string, c: char): (i: int)
    ensures -1 <= i < |name|
    ensures i >= 0 ==> name[i] == c
    ensures forall k :: i < k < |name| ==> name[k] != c
  {
    if name == [] then -1
    else if name[|name| - 1] == c then |name| - 1
    else RFind(name[..|name| - 1], c)
  }

  /** pathlib's test for a name that has a suffix: a dot that is neither first nor last. */
  predicate HasSuffix(name: string) {
    var i := RFind(name, '.');
    0 < i < |name| - 1
  }

  /** `PurePath(name).suffix`. */
  function Suffix(name: string): string {
    if HasSuffix(name) then name[RFind(name, '.')..] else ""
  }

  /** `PurePath(name).stem`. */
  function Stem(name: string): string {
    if HasSuffix(name) then name[..RFind(name, '.')] else name
  }

  /** The stem and the suffix put back together give the name. */
  lemma StemSuffixSplit(name: string)
    ensures Stem(name) + Suffix(name) == name
    ensures Suffix(name) == "" || (Suffix(name)[0] == '.' && '.' !in Suffix(name)[1..])
  {
    if HasSuffix(name) {
      var i := RFind(name, '.');
      assert name[..i] + name[i..] == name;
      assert forall k :: 0 <= k < |name[i..][1..]| ==> name[i..][1..][k] == name[i + 1 + k];
    }
  }

  /** Appending ".py" to a non-empty stem gives a file whose stem and suffix are those parts. */
  lemma {:induction false} PyFileRoundTrip(stem: string)
    requires stem != ""
    ensures Suffix(stem + ".py") == ".py"
    ensures Stem(stem + ".py") == stem
  {
    var name := stem + ".py";
    assert name[|name| - 1] == 'y' && name[|name| - 2] == 'p' && name[|name| - 3] == '.';
    assert name[..|name| - 1][..|name| - 2] == name[..|name| - 2];
    assert RFind(name[..|name| - 1], '.') == RFind(name[..|name| - 2], '.');
    assert RFind(name, '.') == |stem|;
    assert name[..|stem|] == stem;
  }

  /** A name whose suffix is ".py" is its stem followed by ".py". */
  lemma PySuffixRoundTrip(name: string)
    requires Suffix(name) == ".py"
    ensures Stem(name) != "" && Stem(name) + ".py" == name
  {
    StemSuffixSplit(name);
  }
}
