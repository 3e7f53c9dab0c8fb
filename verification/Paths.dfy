/** What the path and prefix helpers of the request handlers compute, stated by concatenation
    (bin/orckerd/src/mutate.rs:208-224, 244-277, 331-337). */
module Paths {
  import opened Text
  import opened Config
  import opened Mutate

  // ---- Parents ----

  /** An absolute path without empty components or a trailing slash. */
  ghost predicate Canonical(p: string) {
    || p == "/"
    || (&& p != "" && p[0] == '/' && p[|p| - 1] != '/'
        && (forall i :: 0 <= i < |p| - 1 ==> p[i] != '/' || p[i + 1] != '/'))
  }

  /** One path component. */
  predicate Component(dir: string) { dir != "" && '/' !in dir }

  function Below(root: string, dir: string): string {
    if root == "/" then "/" + dir else root + "/" + dir
  }

  lemma LastSlashIs(p: string, k: int)
    requires -1 <= k < |p| && (k >= 0 ==> p[k] == '/') && (forall i :: k < i < |p| ==> p[i] != '/')
    ensures LastSlash(p) == k
  {
  }

  lemma {:induction false} NothingAfterLastSlash(p: string)
    ensures forall i :: LastSlash(p) < i < |p| ==> p[i] != '/'
  {
    if p != "" && p[|p| - 1] != '/' {
      NothingAfterLastSlash(p[..|p| - 1]);
      assert forall i :: 0 <= i < |p| - 1 ==> p[..|p| - 1][i] == p[i];
    }
  }

  /** The parent of a directory's entry is the directory. */
  lemma ParentOfBelow(root: string, dir: string)
    requires Component(dir) && root != "" && (root == "/" || root[|root| - 1] != '/')
    ensures Parent(Below(root, dir)) == Some(root)
  {
    var p := Below(root, dir);
    assert forall i :: 0 <= i < |dir| ==> dir[i] in dir;
    if root == "/" {
      LastSlashIs(p, 0);
    } else {
      LastSlashIs(p, |root|);
      assert p[..|root|] == root;
    }
  }

  lemma CanonicalBelow(root: string, dir: string)
    requires Component(dir) && root != "" && Canonical(Below(root, dir))
    ensures root == "/" || root[|root| - 1] != '/'
  {
    var p, i := Below(root, dir), |root| - 1;
    assert root != "/" ==> p[i] == root[i] && p[i + 1] == '/';
  }

  lemma ParentAndEntry(p: string) returns (dir: string)
    requires Canonical(p) && p != "/"
    ensures Component(dir) && Parent(p).Some? && Parent(p).value != "" && p == Below(Parent(p).value, dir)
  {
    var k := LastSlash(p);
    NothingAfterLastSlash(p);
    dir := p[k + 1..];
    assert k >= 0;
    assert forall i :: 0 <= i < |dir| ==> dir[i] == p[k + 1 + i];
    assert p == p[..k] + "/" + dir;
    assert k != 1;
  }

  /** Of a canonical path, the parent is the one directory it is an entry of; only the root has none. */
  lemma ParentIff(p: string, root: string)
    requires Canonical(p)
    ensures Parent(p) == Some(root) <==> root != "" && exists dir :: Component(dir) && p == Below(root, dir)
    ensures Parent(p) == None <==> p == "/"
  {
    if p != "/" {
      var dir := ParentAndEntry(p);
      if root != "" && exists d :: Component(d) && p == Below(root, d) {
        var d :| Component(d) && p == Below(root, d);
        CanonicalBelow(root, d);
        ParentOfBelow(root, d);
      }
    }
  }

  // ---- At or below a root ----

  /** A path is the root itself or continues it after a slash. */
  ghost predicate AtOrBelow(docroot: string, root: string) {
    docroot == root || exists rest :: docroot == root + "/" + rest
  }

  lemma UnderRootIff(docroot: string, root: string)
    ensures IsUnderRoot(docroot, root) <==> AtOrBelow(docroot, root)
  {
    if IsUnderRoot(docroot, root) && docroot != root {
      assert docroot == root + "/" + docroot[|root| + 1..];
    }
    if rest :| docroot == root + "/" + rest {
      assert root + "/" + rest == root + ("/" + rest);
    }
  }

  // ---- Prefixes ----

  function Slashes(k: nat): string { seq(k, _ => '/') }

  /** Normalising takes off trailing slashes and nothing else, down to a lone one. */
  lemma {:induction false} NormalizedPrefix(p: string)
    ensures var r := NormalizePrefix(p);
            && (|r| <= 1 || r[|r| - 1] != '/')
            && r <= p && p == r + Slashes(|p| - |r|)
            && (p != "" ==> r != "")
  {
    if |p| > 1 && p[|p| - 1] == '/' {
      var q := p[..|p| - 1];
      NormalizedPrefix(q);
      var r := NormalizePrefix(p);
      assert p == q + "/" && Slashes(|p| - |r|) == Slashes(|q| - |r|) + "/";
    } else {
      assert p == p + Slashes(0);
    }
  }
}
