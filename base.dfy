/** Small shared building blocks: an optional value and the string searches the
    scene code relies on (String.LastIndexOf and Path.GetFileNameWithoutExtension). */
module Base {

  /** A value that may be absent; stands for a C# reference that may be null. */
  datatype Option<T> = None | Some(value: T)

  /** String.LastIndexOf(char): the position of the last occurrence of `c` in `s`, or -1. */
  function LastIndexOf(s: string, c: char): (r: int)
    ensures -1 <= r < |s|
    ensures r == -1 <==> c !in s
    ensures r >= 0 ==> s[r] == c && c !in s[r + 1..]
  {
    if |s| == 0 then -1
    else if s[|s| - 1] == c then |s| - 1
    else
      assert s == s[..|s| - 1] + [s[|s| - 1]];
      LastIndexOf(s[..|s| - 1], c)
  }

  /** The last occurrence of `c` in `a + [c] + b` is the one between them when `b` holds none. */
  lemma {:induction false} LastIndexOfSplit(a: string, c: char, b: string)
    requires c !in b
    ensures LastIndexOf(a + [c] + b, c) == |a|
  {
    var s := a + [c] + b;
    assert s[|a|] == c;
    assert s[|a| + 1..] == b;
  }

  /** Path.GetFileNameWithoutExtension with '/' as the only directory separator: the
      part after the last '/', up to (not including) its last '.'. */
  function FileNameWithoutExtension(path: string): (r: string)
    ensures '/' !in r
    ensures |r| <= |path|
  {
    var file := path[LastIndexOf(path, '/') + 1..];
    var dot := LastIndexOf(file, '.');
    if dot < 0 then file else file[..dot]
  }

  /** The file name of `dir/name.ext` is `name` when `name` has no '/' and `ext` has no '.'. */
  lemma FileNameOfSplitPath(dir: string, name: string, ext: string)
    requires '/' !in name && '/' !in ext && '.' !in ext
    ensures FileNameWithoutExtension(dir + "/" + name + "." + ext) == name
  {
    var path := dir + "/" + name + "." + ext;
    assert path == dir + ['/'] + (name + "." + ext);
    LastIndexOfSplit(dir, '/', name + "." + ext);
    var file := path[|dir| + 1..];
    assert file == name + ['.'] + ext;
    LastIndexOfSplit(name, '.', ext);
  }
}
