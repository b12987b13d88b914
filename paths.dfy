/**
 * Where the token file is written: a bare file name is placed beside the
 * kubeconfig, anything containing a separator is used as given. Paths use
 * '/' as the separator; `Dir` and `Join` are the directory and join
 * operations of a '/'-separated path without lexical clean-up.
 */
module TokenPath {

  const Separator: char := '/'

  /** The index of the first `c` in `s`, or -1 (the byte search used on the token file name). */
  function IndexOf(s: string, c: char): (r: int)
    ensures -1 <= r < |s|
    ensures r == -1 <==> c !in s
    ensures 0 <= r ==> s[r] == c && c !in s[..r]
  {
    if s == [] then -1
    else if s[0] == c then 0
    else
      var k := IndexOf(s[1..], c);
      if k == -1 then -1
      else
        assert s[..k + 1] == [s[0]] + s[1..][..k];
        k + 1
  }

  /** The index of the last `c` in `s`, or -1. */
  function LastIndexOf(s: string, c: char): (r: int)
    ensures -1 <= r < |s|
    ensures r == -1 <==> c !in s
    ensures 0 <= r ==> s[r] == c && c !in s[r + 1..]
  {
    if s == [] then -1
    else if s[|s| - 1] == c then |s| - 1
    else
      var k := LastIndexOf(s[..|s| - 1], c);
      if k != -1 then
        assert s[k + 1..] == s[..|s| - 1][k + 1..] + [s[|s| - 1]];
        k
      else
        assert s == s[..|s| - 1] + [s[|s| - 1]];
        -1
  }

  /** Every path has a directory: "." when it has no separator, "/" when its only separator leads it. */
  function Dir(p: string): (r: string)
    ensures r != ""
    ensures Separator !in p ==> r == "."
  {
    var i := LastIndexOf(p, Separator);
    if i == -1 then "."
    else if i == 0 then "/"
    else p[..i]
  }

  /** The last element of a path: what follows its last separator. */
  function Base(p: string): string
  {
    p[LastIndexOf(p, Separator) + 1..]
  }

  /** `name` placed inside directory `dir`. */
  function Join(dir: string, name: string): string
  {
    if name == "" then dir
    else if dir == "" || dir == "." then name
    else if dir == "/" then dir + name
    else dir + [Separator] + name
  }

  /** The secret's path: a bare name goes into the kubeconfig's directory, any other path is kept verbatim. */
  function ResolveTokenPath(tokenFile: string, kubeconfig: string): (r: string)
    ensures Separator in tokenFile ==> r == tokenFile
    ensures Separator !in tokenFile ==> r == Join(Dir(kubeconfig), tokenFile)
  {
    if IndexOf(tokenFile, Separator) == -1 then Join(Dir(kubeconfig), tokenFile)
    else tokenFile
  }

  /** A separator that no later separator follows is the last one. */
  lemma LastIndexOfIs(s: string, c: char, k: nat)
    requires k < |s| && s[k] == c && c !in s[k + 1..]
    ensures LastIndexOf(s, c) == k
  {
  }

  /** Joining a bare name onto a directory gives a path whose directory is that one and whose last element is the name. */
  lemma {:induction false} DirJoin(dir: string, name: string)
    requires dir != "" && name != "" && Separator !in name
    ensures Dir(Join(dir, name)) == dir
    ensures Base(Join(dir, name)) == name
  {
    var p := Join(dir, name);
    if dir == "." {
      assert p == name;
    } else if dir == "/" {
      assert p == [Separator] + name;
      assert p[1..] == name;
      LastIndexOfIs(p, Separator, 0);
    } else {
      assert p == dir + [Separator] + name;
      assert p[|dir| + 1..] == name;
      assert p[..|dir|] == dir;
      LastIndexOfIs(p, Separator, |dir|);
    }
  }

  /**
   * A bare token file name ends up beside the kubeconfig: same directory, and
   * the name itself as the last path element.
   */
  lemma {:induction false} BareNameColocated(tokenFile: string, kubeconfig: string)
    requires tokenFile != "" && Separator !in tokenFile
    ensures Dir(ResolveTokenPath(tokenFile, kubeconfig)) == Dir(kubeconfig)
    ensures Base(ResolveTokenPath(tokenFile, kubeconfig)) == tokenFile
  {
    DirJoin(Dir(kubeconfig), tokenFile);
  }

  /** A bare name given with "/etc/kube/config" lands in "/etc/kube". */
  lemma {:induction false} ResolveBareExample()
    ensures ResolveTokenPath("sa.token", "/etc/kube/config") == "/etc/kube/sa.token"
  {
    var kc := "/etc/kube/config";
    assert kc[9] == Separator && kc[10..] == "config";
    LastIndexOfIs(kc, Separator, 9);
    assert kc[..9] == "/etc/kube";
    assert Separator !in "sa.token";
  }

  /** An absolute token file path is kept as it is. */
  lemma ResolveAbsoluteExample()
    ensures ResolveTokenPath("/abs/sa.token", "/etc/kube/config") == "/abs/sa.token"
  {
  }

  /** A kubeconfig without a directory puts a bare name in the working directory. */
  lemma ResolveNoDirExample()
    ensures ResolveTokenPath("sa.token", "config") == "sa.token"
  {
  }

  /** A bare name given with "/tmp/kc" lands in "/tmp". */
  lemma ResolveScenarioExample()
    ensures ResolveTokenPath("sa-token", "/tmp/kc") == "/tmp/sa-token"
  {
  }
}
