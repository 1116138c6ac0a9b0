/** Directory trees as maps from paths to nodes. A path is the folded names of its levels. */
module Trees {
  type Key = seq<string>

  datatype Node<+T> = Dir | File(data: T)

  type Tree<+T> = map<Key, Node<T>>

  // A file lies where a directory of the path is wanted.
  predicate Blocked<T>(t: Tree<T>, dir: Key) {
    exists q | q in t :: q != [] && q <= dir && t[q].File?
  }

  predicate HasChildren<T>(t: Tree<T>, k: Key) {
    exists q | q in t :: k < q
  }

  predicate IsDir<T>(t: Tree<T>, k: Key) {
    k in t && t[k].Dir?
  }

  predicate IsFile<T>(t: Tree<T>, k: Key) {
    k in t && t[k].File?
  }

  // The first n levels of a path.
  function Levels(dir: Key, n: nat): (s: set<Key>)
    ensures forall q :: q in s <==> q != [] && q <= dir && |q| <= n
  {
    assert forall q: Key :: q <= dir ==> q == dir[..|q|];
    set i: nat | 0 < i <= |dir| && i <= n :: dir[..i]
  }

  // Make the missing ones of the first n levels. Making them all takes |dir|.
  function MkdirAll<T>(t: Tree<T>, dir: Key, n: nat): (u: Tree<T>)
    ensures forall q :: q in u <==> q in t || q in Levels(dir, n)
    ensures forall q :: q in u ==> u[q] == if q in t then t[q] else Dir
  {
    map q | q in t.Keys + Levels(dir, n) :: if q in t then t[q] else Dir
  }

  // Removing what is not there succeeds; a directory goes only when it is empty.
  predicate Removable<T>(t: Tree<T>, k: Key) {
    IsDir(t, k) ==> !HasChildren(t, k)
  }

  predicate SameNode<T(==)>(t: Tree<T>, u: Tree<T>, k: Key) {
    (k in t <==> k in u) && (k in t && k in u ==> t[k] == u[k])
  }

  function Parent(k: Key): Key
    requires k != []
  {
    k[..|k| - 1]
  }

  ghost predicate DirsAbove<T>(t: Tree<T>, k: Key) {
    forall p :: p != [] && p < k ==> IsDir(t, p)
  }

  // Whatever is there has directories all the way up.
  ghost predicate IsTree<T(!new)>(t: Tree<T>) {
    forall q | q in t :: DirsAbove(t, q)
  }

  lemma {:induction false} TreeMkdir<T(!new)>(t: Tree<T>, dir: Key, n: nat)
    requires IsTree(t) && !Blocked(t, dir)
    ensures IsTree(MkdirAll(t, dir, n))
  {
    var u := MkdirAll(t, dir, n);
    forall q | q in u ensures DirsAbove(u, q) {
      forall p | p != [] && p < q ensures IsDir(u, p) {
        if q in t { assert DirsAbove(t, q); assert IsDir(t, p); }
      }
    }
  }

  lemma {:induction false} TreePut<T(!new)>(t: Tree<T>, k: Key, x: T)
    requires IsTree(t) && DirsAbove(t, k) && !IsDir(t, k)
    ensures IsTree(t[k := File(x)])
  {
    var u := t[k := File(x)];
    forall q | q in u ensures DirsAbove(u, q) {
      assert DirsAbove(t, q);
      forall p | p != [] && p < q ensures IsDir(u, p) {
        assert IsDir(t, p);
      }
    }
  }

  lemma {:induction false} TreeRemove<T(!new)>(t: Tree<T>, k: Key)
    requires IsTree(t) && Removable(t, k)
    ensures IsTree(t - {k})
  {
    var u := t - {k};
    forall q | q in u ensures DirsAbove(u, q) {
      assert DirsAbove(t, q);
      forall p | p != [] && p < q ensures IsDir(u, p) {
        assert IsDir(t, p);
      }
    }
  }

  // What the difference of maps says about one path.
  lemma {:induction false} SameElsewhere<T(!new)>(t: Tree<T>, u: Tree<T>, gone: set<Key>, q: Key)
    requires t - gone == u - gone && q !in gone
    ensures SameNode(t, u, q)
  {
    assert q in t <==> q in t - gone;
    assert q in u <==> q in u - gone;
  }
}
