/** `pathlib` paths as '/'-separated strings: the parts of `PurePath` the
    core uses (`name`, `parent`, `stem`, `suffix`, the `/` operator). */
module Paths {
  import opened Strings

  type Path = string

  /** `Path.name`: the last component, the characters after the last '/'. */
  function Name(p: Path): string
    decreases |p|
  {
    if |p| == 0 || p[|p| - 1] == '/' then "" else Name(p[..|p| - 1]) + [p[|p| - 1]]
  }

  /** The name is what follows the last '/', or the whole path when it has
      none. */
  lemma {:induction false} NameAfterLastSlash(p: Path)
    ensures Name(p) == p[LastIndexOf(p, '/') + 1..]
    ensures '/' !in p ==> Name(p) == p
    decreases |p|
  {
    if |p| > 0 && p[|p| - 1] != '/' {
      var init := p[..|p| - 1];
      NameAfterLastSlash(init);
      assert LastIndexOf(p, '/') == LastIndexOf(init, '/');
      assert p[LastIndexOf(p, '/') + 1..] == init[LastIndexOf(init, '/') + 1..] + [p[|p| - 1]];
      if '/' !in p {
        assert forall k :: 0 <= k < |init| ==> init[k] == p[k];
        assert init + [p[|p| - 1]] == p;
      }
    }
  }

  /** A name holds no '/'. */
  lemma {:induction false} NameHasNoSlash(p: Path)
    ensures '/' !in Name(p)
    decreases |p|
  {
    if |p| > 0 && p[|p| - 1] != '/' {
      NameHasNoSlash(p[..|p| - 1]);
    }
  }

  /** `Path.parent`. */
  function Parent(p: Path): Path {
    var i := LastIndexOf(p, '/');
    if i < 0 then "." else if i == 0 then "/" else p[..i]
  }

  /** `directory / name`. */
  function Join(directory: Path, name: string): Path {
    if directory == "." then name
    else if EndsWith(directory, "/") then directory + name
    else directory + "/" + name
  }

  /** `Path(name).suffix`: from the last '.', if that dot is neither the first
      nor the last character. */
  function Suffix(name: string): string {
    var i := LastIndexOf(name, '.');
    if 0 < i < |name| - 1 then name[i..] else ""
  }

  /** `Path(name).stem`: the name without its suffix. */
  function Stem(name: string): string {
    var i := LastIndexOf(name, '.');
    if 0 < i < |name| - 1 then name[..i] else name
  }

  lemma StemSuffix(name: string)
    ensures Stem(name) + Suffix(name) == name
    ensures Suffix(name) == "" || (|Suffix(name)| >= 2 && Suffix(name)[0] == '.')
  {
    LastIndexOfMeaning(name, '.');
  }

  /** Joining a plain name onto a directory and taking `.name` gives it back. */
  lemma {:induction false} NameOfJoin(directory: Path, name: string)
    requires '/' !in name
    ensures Name(Join(directory, name)) == name
    decreases |name|
  {
    if name == [] {
      if directory != "." {
        var p := Join(directory, name);
        assert |p| > 0 && p[|p| - 1] == '/';
      }
    } else {
      var init := name[..|name| - 1];
      assert name == init + [name[|name| - 1]];
      assert forall k :: 0 <= k < |init| ==> init[k] == name[k];
      NameOfJoin(directory, init);
      assert Join(directory, name) == Join(directory, init) + [name[|name| - 1]];
      assert Join(directory, name)[..|Join(directory, name)| - 1] == Join(directory, init);
    }
  }
}
