/** The identifier parser of the plugin: how a dotted nose test id becomes
    the `classname` and `name` of a report record.

    `RSplitDot` is Python's `s.rsplit('.', 1)`, `JoinWith` is `sep.join(parts)`,
    and nose's `id_split` is modelled by its plain branch, which is `rsplit('.', 1)`
    on the id. */
module TestIds {
  import opened Wrappers

  /** The index of the last occurrence of `c` in `s`, if any. */
  function LastIndexOf(s: string, c: char): (r: Option<nat>)
    ensures r.Some? ==> r.value < |s|
  {
    if |s| == 0 then None
    else if s[|s| - 1] == c then Some(|s| - 1)
    else LastIndexOf(s[..|s| - 1], c)
  }

  /** `LastIndexOf` finds an occurrence with none after it, and finds none
      exactly when `c` does not occur. */
  lemma {:induction false} LastIndexOfFinds(s: string, c: char)
    ensures var r := LastIndexOf(s, c);
      && (r.Some? ==> s[r.value] == c && c !in s[r.value + 1..])
      && (r.None? <==> c !in s)
  {
    if |s| > 0 && s[|s| - 1] != c {
      LastIndexOfFinds(s[..|s| - 1], c);
      assert s == s[..|s| - 1] + [s[|s| - 1]];
    }
  }

  /** Python's `sep.join(parts)` for a one-character separator. */
  function JoinWith(sep: char, parts: seq<string>): (s: string)
    ensures |parts| == 0 ==> s == ""
    ensures |parts| == 1 ==> s == parts[0]
    ensures |parts| >= 1 ==> |parts[0]| <= |s| && s[..|parts[0]|] == parts[0]
  {
    if |parts| == 0 then ""
    else if |parts| == 1 then parts[0]
    else parts[0] + [sep] + JoinWith(sep, parts[1..])
  }

  /** Python's `s.rsplit('.', 1)`: the text before and after the last dot,
      or `[s]` alone when `s` has no dot. */
  function RSplitDot(s: string): (parts: seq<string>)
    ensures 1 <= |parts| <= 2
  {
    match LastIndexOf(s, '.')
    case None => [s]
    case Some(i) => [s[..i], s[i + 1..]]
  }

  /** The split has two parts exactly when `s` has a dot; the right part has
      no dot; and joining the parts with a dot gives `s` back. */
  lemma RSplitDotParts(s: string)
    ensures var parts := RSplitDot(s);
      && (|parts| == 1 <==> '.' !in s)
      && (|parts| == 1 ==> parts[0] == s)
      && (|parts| == 2 ==> s == parts[0] + "." + parts[1] && '.' !in parts[1])
      && JoinWith('.', parts) == s
  {
    LastIndexOfFinds(s, '.');
    match LastIndexOf(s, '.')
    case None =>
    case Some(i) =>
      assert s == s[..i] + "." + s[i + 1..];
      JoinTwo('.', s[..i], s[i + 1..]);
  }

  /** nose's `id_split(id)`, as the last-dot split of the id. */
  function IdSplit(id: string): (parts: seq<string>)
    ensures 1 <= |parts| <= 2
  {
    RSplitDot(id)
  }

  /** The record's `classname`: `':'.join(id_split(id)[0].rsplit('.', 1))`. */
  function ClassName(id: string): (classname: string)
    ensures |classname| == |IdSplit(id)[0]|
  {
    var prefix := IdSplit(id)[0];
    RSplitDotParts(prefix);
    var parts := RSplitDot(prefix);
    if |parts| == 2 then JoinTwo(':', parts[0], parts[1]); JoinWith(':', parts)
    else JoinWith(':', parts)
  }

  /** The record's `name`: `id_split(id)[-1]`. */
  function TestName(id: string): (name: string)
    ensures '.' !in name
    ensures |name| <= |id|
  {
    RSplitDotParts(id);
    var parts := IdSplit(id);
    parts[|parts| - 1]
  }

  /** Joining two parts puts the separator between them. */
  lemma JoinTwo(sep: char, a: string, b: string)
    ensures JoinWith(sep, [a, b]) == a + [sep] + b
  {
  }

  /** The last-dot split is the unique split whose right part has no dot. */
  lemma RSplitDotUnique(head: string, leaf: string)
    requires '.' !in leaf
    ensures RSplitDot(head + "." + leaf) == [head, leaf]
  {
    var s := head + "." + leaf;
    assert s[|head|] == '.';
    RSplitDotParts(s);
    LastIndexOfFinds(s, '.');
    var parts := RSplitDot(s);
    assert |parts[0]| == |head|;
    assert parts[0] == s[..|head|] == head;
    assert parts[1] == s[|head| + 1..] == leaf;
  }

  /** The classname is the id's prefix (all but the last component) with its
      last dot replaced by a colon, and the prefix unchanged when it has no
      dot; the name is the last component. */
  lemma ClassNameReplacesLastDot(id: string)
    ensures var prefix := IdSplit(id)[0];
      match LastIndexOf(prefix, '.')
      case None => ClassName(id) == prefix
      case Some(i) =>
        && |ClassName(id)| == |prefix|
        && ClassName(id)[i] == ':'
        && forall j :: 0 <= j < |prefix| && j != i ==> ClassName(id)[j] == prefix[j]
    ensures '.' !in TestName(id)
    ensures '.' in id ==> id == IdSplit(id)[0] + "." + TestName(id)
  {
    var prefix := IdSplit(id)[0];
    RSplitDotParts(id);
    LastIndexOfFinds(prefix, '.');
    match LastIndexOf(prefix, '.')
    case None =>
    case Some(i) =>
      var head, leaf := prefix[..i], prefix[i + 1..];
      assert prefix == head + "." + leaf;
      RSplitDotUnique(head, leaf);
      JoinTwo(':', head, leaf);
      var c := ClassName(id);
      assert c == head + ":" + leaf;
      forall j | 0 <= j < |prefix| && j != i
        ensures c[j] == prefix[j]
      {
        if j < i {
          assert c[j] == head[j] == prefix[j];
        } else {
          assert c[j] == leaf[j - i - 1] == prefix[j];
        }
      }
  }

  /** A fully dotted id `module.Class.test` gives the classname
      `module:Class` and the name `test`. */
  lemma DottedIdParts(pkg: string, cls: string, test: string)
    requires '.' !in cls && '.' !in test
    ensures ClassName(pkg + "." + cls + "." + test) == pkg + ":" + cls
    ensures TestName(pkg + "." + cls + "." + test) == test
  {
    RSplitDotUnique(pkg + "." + cls, test);
    RSplitDotUnique(pkg, cls);
    JoinTwo(':', pkg, cls);
  }

  /** An id without any dot is both the classname and the name. */
  lemma UndottedId(id: string)
    requires '.' !in id
    ensures ClassName(id) == id && TestName(id) == id
  {
    RSplitDotParts(id);
  }

  /** A two-component id `Class.test` keeps `Class` unchanged as classname. */
  lemma SingleDotId(cls: string, test: string)
    requires '.' !in cls && '.' !in test
    ensures ClassName(cls + "." + test) == cls
    ensures TestName(cls + "." + test) == test
  {
    RSplitDotUnique(cls, test);
    RSplitDotParts(cls);
  }
}
