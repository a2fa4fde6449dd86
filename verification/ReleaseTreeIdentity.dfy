/**
 * What the digest stream identifies: the release tree, up to the order in which `readdir` lists siblings
 * and up to permission bits other than the executable ones (src/modules/installation/release-tree.ts).
 */
module ReleaseTreeIdentity {
  import opened Base
  import opened DigestStream
  import opened ReleaseTree
  import Sorting

  /** Names a directory can hold: not empty, no slash, no two alike; at every depth. */
  predicate WellNamed(s: seq<Node>) {
    && (forall i, j :: 0 <= i < j < |s| ==> s[i].name != s[j].name)
    && forall n :: n in s ==> WellNamedNode(n)
  }

  predicate WellNamedNode(n: Node) {
    && n.name != [] && SLASH !in n.name
    && (n.kind.Directory? ==> WellNamed(n.kind.children))
  }

  predicate HasName(s: seq<Node>, name: Bytes) {
    exists n :: n in s && n.name == name
  }

  predicate NamesWithin(a: seq<Node>, b: seq<Node>) {
    forall x :: x in a ==> HasName(b, x.name)
  }

  /** The same directory content, whatever the order of the two sequences. */
  predicate Same(a: seq<Node>, b: seq<Node>)
    decreases a
  {
    && NamesWithin(a, b) && NamesWithin(b, a)
    && forall x :: x in a ==> forall y :: y in b && x.name == y.name ==> SameNode(x, y)
  }

  predicate SameNode(x: Node, y: Node)
    decreases x
  {
    && Executable(x.mode) == Executable(y.mode)
    && match x.kind
       case Directory(children) => y.kind.Directory? && Same(children, y.kind.children)
       case File(content) => y.kind == File(content)
       case Symlink(target, _) => y.kind.Symlink? && y.kind.target == target
       case Special => y.kind.Special?
  }

  /** Position by position the same names and contents. */
  predicate Aligned(s: seq<Node>, t: seq<Node>) {
    |s| == |t| && forall i :: 0 <= i < |s| ==> s[i].name == t[i].name && SameNode(s[i], t[i])
  }

  lemma SortedNames(s: seq<Node>, before: Order)
    requires Sorting.StrictTotal(before) && WellNamed(s)
    ensures Sorting.Ascending(Sorting.Keys(Sorted(s, before), NameOf), before)
    ensures |Sorted(s, before)| == |s| && forall n :: n in Sorted(s, before) <==> n in s
    ensures WellNamed(Sorted(s, before))
  {
    hide WellNamedNode;
    var t := Sorted(s, before);
    Sorting.SortAscends(s, NameOf, before);
    Sorting.Members(t, s);
    var keys := Sorting.Keys(t, NameOf);
    forall i, j | 0 <= i < j < |t|
      ensures t[i].name != t[j].name
    {
      assert before(keys[i], keys[j]);
    }
  }

  lemma Named(s: seq<Node>, n: Node)
    requires n in s
    ensures NameOf(n) in Sorting.Keys(s, NameOf)
  {
    var i :| 0 <= i < |s| && s[i] == n;
    assert Sorting.Keys(s, NameOf)[i] == NameOf(n);
  }

  /** Sorting the same directory content gives the same listing order. */
  lemma SameThenAligned(a: seq<Node>, b: seq<Node>, before: Order)
    requires Sorting.StrictTotal(before) && WellNamed(a) && WellNamed(b) && Same(a, b)
    ensures Aligned(Sorted(a, before), Sorted(b, before))
  {
    hide WellNamed, SameNode, Sorted;
    var s, t := Sorted(a, before), Sorted(b, before);
    SortedNames(a, before);
    SortedNames(b, before);
    var u, v := Sorting.Keys(s, NameOf), Sorting.Keys(t, NameOf);
    forall x
      ensures x in u <==> x in v
    {
      if x in u {
        var i :| 0 <= i < |u| && u[i] == x;
        assert s[i] in a;
        var y :| y in b && y.name == s[i].name;
        Named(t, y);
      }
      if x in v {
        var i :| 0 <= i < |v| && v[i] == x;
        assert t[i] in b;
        var y :| y in a && y.name == t[i].name;
        Named(s, y);
      }
    }
    Sorting.AscendingUnique(u, v, before);
    forall i | 0 <= i < |s|
      ensures s[i].name == t[i].name && SameNode(s[i], t[i])
    {
      assert s[i] in a && t[i] in b && u[i] == v[i];
    }
  }

  /** Aligned sorted directories hold the same content. */
  lemma AlignedThenSame(a: seq<Node>, b: seq<Node>, before: Order)
    requires Sorting.StrictTotal(before) && WellNamed(a) && WellNamed(b)
    requires Aligned(Sorted(a, before), Sorted(b, before))
    ensures Same(a, b)
  {
    hide WellNamedNode, SameNode, Sorted;
    var s, t := Sorted(a, before), Sorted(b, before);
    SortedNames(a, before);
    SortedNames(b, before);
    forall x | x in a
      ensures HasName(b, x.name)
    {
      var i :| 0 <= i < |s| && s[i] == x;
      assert t[i] in b;
    }
    forall y | y in b
      ensures HasName(a, y.name)
    {
      var i :| 0 <= i < |t| && t[i] == y;
      assert s[i] in a;
    }
    forall x, y | x in a && y in b && x.name == y.name
      ensures SameNode(x, y)
    {
      var i :| 0 <= i < |s| && s[i] == x;
      var j :| 0 <= j < |t| && t[j] == y;
      assert i == j;
    }
  }

  /** Readdir order does not matter: aligned directories give one listing. */
  lemma {:induction false} AlignedListing(prefix: Bytes, s: seq<Node>, t: seq<Node>, before: Order)
    requires Sorting.StrictTotal(before) && WellNamed(s) && WellNamed(t) && Aligned(s, t)
    ensures Listing(prefix, s, before) == Listing(prefix, t, before)
    decreases Size(s), |s|
  {
    if s != [] {
      var x, y := s[0], t[0];
      assert WellNamedNode(x) && WellNamedNode(y);
      assert Emit(prefix, x, before) == Emit(prefix, y, before) by {
        if x.kind.Directory? {
          var a, b := x.kind.children, y.kind.children;
          SameThenAligned(a, b, before);
          SortedNames(a, before);
          SortedNames(b, before);
          SortKeepsSize(a, before);
          assert Size(s) == NodeSize(x) + Size(s[1..]);
          AlignedListing(prefix + x.name + [SLASH], Sorted(a, before), Sorted(b, before), before);
        }
      }
      AlignedListing(prefix, s[1..], t[1..], before);
    }
  }

  /** The path is that of the named child of `prefix`, or lies below it. */
  predicate From(path: Bytes, prefix: Bytes, name: Bytes) {
    prefix + name <= path && (|path| == |prefix + name| || path[|prefix + name|] == SLASH)
  }

  predicate Under(path: Bytes, parent: Bytes) {
    parent + [SLASH] <= path
  }

  /** Every row of a listing comes from one of the children. */
  lemma {:induction false} Origin(prefix: Bytes, s: seq<Node>, before: Order, e: Entry) returns (n: Node)
    requires e in Listing(prefix, s, before)
    ensures n in s && From(e.path, prefix, n.name)
    decreases Size(s), |s|
  {
    if e in Emit(prefix, s[0], before) {
      n := s[0];
      if e.path != prefix + n.name {
        SortKeepsSize(n.kind.children, before);
        assert Size(s) == NodeSize(n) + Size(s[1..]);
        var below := prefix + n.name + [SLASH];
        var m := Origin(below, Sorted(n.kind.children, before), before, e);
        assert below <= below + m.name <= e.path;
        assert below[|prefix + n.name|] == SLASH;
      }
    } else {
      n := Origin(prefix, s[1..], before, e);
    }
  }

  lemma BelowADirectory(prefix: Bytes, s: seq<Node>, before: Order, parent: Bytes)
    requires prefix == parent + [SLASH]
    ensures forall e :: e in Listing(prefix, s, before) ==> Under(e.path, parent)
  {
    forall e | e in Listing(prefix, s, before)
      ensures Under(e.path, parent)
    {
      var n := Origin(prefix, s, before, e);
      assert prefix <= prefix + n.name;
    }
  }

  lemma OtherNameIsElsewhere(path: Bytes, prefix: Bytes, name: Bytes, other: Bytes)
    requires From(path, prefix, other) && other != name && SLASH !in name && SLASH !in other
    ensures !Under(path, prefix + name)
  {
    var p, q := prefix + name, prefix + other;
    assert forall i :: 0 <= i < |other| ==> path[|prefix| + i] == q[|prefix| + i] == other[i];
    assert forall i :: 0 <= i < |name| ==> (p + [SLASH])[|prefix| + i] == name[i];
    assert (p + [SLASH])[|p|] == SLASH;
    if |name| < |other| {
      assert path[|p|] == other[|name|];
    } else if |other| < |name| {
      assert (p + [SLASH])[|q|] == name[|other|];
    } else {
      var i :| 0 <= i < |name| && name[i] != other[i];
    }
  }

  lemma BesideADirectory(prefix: Bytes, s: seq<Node>, before: Order)
    requires s != [] && WellNamed(s)
    ensures forall e :: e in Listing(prefix, s[1..], before) ==> !Under(e.path, prefix + s[0].name)
  {
    forall e | e in Listing(prefix, s[1..], before)
      ensures !Under(e.path, prefix + s[0].name)
    {
      var n := Origin(prefix, s[1..], before, e);
      var i :| 0 <= i < |s| - 1 && s[1..][i] == n;
      assert s[i + 1] == n && s[0] in s && n in s;
      OtherNameIsElsewhere(e.path, prefix, s[0].name, n.name);
    }
  }

  /** How many rows at the front lie below `parent`. */
  function RowsBelow(s: seq<Entry>, parent: Bytes): (k: nat)
    ensures k <= |s|
  {
    if s == [] || !Under(s[0].path, parent) then 0 else 1 + RowsBelow(s[1..], parent)
  }

  lemma {:induction false} RowsBelowFound(a: seq<Entry>, b: seq<Entry>, parent: Bytes)
    requires forall e :: e in a ==> Under(e.path, parent)
    requires forall e :: e in b ==> !Under(e.path, parent)
    ensures RowsBelow(a + b, parent) == |a|
  {
    hide Under;
    if a == [] {
      assert a + b == b;
    } else {
      assert (a + b)[1..] == a[1..] + b;
      RowsBelowFound(a[1..], b, parent);
    }
  }

  /** A sequence splits in one way only into rows below a directory and rows that are not. */
  lemma OneSplit(a: seq<Entry>, b: seq<Entry>, c: seq<Entry>, d: seq<Entry>, parent: Bytes)
    requires a + b == c + d
    requires forall e :: e in a || e in c ==> Under(e.path, parent)
    requires forall e :: e in b || e in d ==> !Under(e.path, parent)
    ensures a == c && b == d
  {
    hide Under, RowsBelow;
    RowsBelowFound(a, b, parent);
    RowsBelowFound(c, d, parent);
    assert a == (a + b)[..|a|] && c == (c + d)[..|c|];
    assert b == (a + b)[|a|..] && d == (c + d)[|c|..];
  }

  lemma OnlyEmptyIsEmpty(prefix: Bytes, s: seq<Node>, before: Order)
    requires Clean(s)
    ensures Listing(prefix, s, before) == [] <==> s == []
  {
    if s != [] {
      assert CleanNode(s[0]) && Emit(prefix, s[0], before) != [];
    }
  }

  /** The rows of one clean child, and what follows them, determine the child. */
  lemma FirstRow(prefix: Bytes, x: Node, y: Node, p: seq<Entry>, q: seq<Entry>, before: Order)
    requires CleanNode(x) && CleanNode(y)
    requires Emit(prefix, x, before) + p == Emit(prefix, y, before) + q
    ensures x.name == y.name && Executable(x.mode) == Executable(y.mode)
    ensures x.kind.Directory? == y.kind.Directory? && (!x.kind.Directory? ==> SameNode(x, y) && p == q)
  {
    hide Listing;
    var e, f := Emit(prefix, x, before), Emit(prefix, y, before);
    assert (e + p)[0] == e[0] && (f + q)[0] == f[0];
    assert x.name == e[0].path[|prefix|..] && y.name == f[0].path[|prefix|..];
    assert p == (e + p)[|e|..] && q == (f + q)[|f|..];
  }

  /** The listing determines clean directories, position by position. */
  lemma {:induction false} ListingDetermines(prefix: Bytes, s: seq<Node>, t: seq<Node>, before: Order)
    requires Sorting.StrictTotal(before)
    requires WellNamed(s) && WellNamed(t) && Clean(s) && Clean(t)
    requires Listing(prefix, s, before) == Listing(prefix, t, before)
    ensures Aligned(s, t)
    decreases Size(s), |s|
  {
    OnlyEmptyIsEmpty(prefix, s, before);
    OnlyEmptyIsEmpty(prefix, t, before);
    if s != [] {
      hide SameNode, WellNamedNode, CleanNode, Emit;
      var x, y := s[0], t[0];
      var p, q := Listing(prefix, s[1..], before), Listing(prefix, t[1..], before);
      FirstRow(prefix, x, y, p, q, before);
      if x.kind.Directory? {
        DirectoryDetermines(prefix, s, t, before);
      }
      ListingDetermines(prefix, s[1..], t[1..], before);
      assert forall i :: 1 <= i < |s| ==> s[i] == s[1..][i - 1] && t[i] == t[1..][i - 1];
    }
  }

  /** The rows below the first child when that child is a directory. */
  function Below(prefix: Bytes, x: Node, before: Order): seq<Entry>
    requires x.kind.Directory?
  {
    Listing(prefix + x.name + [SLASH], Sorted(x.kind.children, before), before)
  }

  /** Rows below the first directory and rows after it are told apart. */
  lemma DirectoryRows(prefix: Bytes, s: seq<Node>, t: seq<Node>, before: Order)
    requires WellNamed(s) && WellNamed(t) && s != [] && t != []
    requires Listing(prefix, s, before) == Listing(prefix, t, before)
    requires s[0].name == t[0].name && s[0].kind.Directory? && t[0].kind.Directory?
    ensures Below(prefix, s[0], before) == Below(prefix, t[0], before)
    ensures Listing(prefix, s[1..], before) == Listing(prefix, t[1..], before)
  {
    hide WellNamed, Sorted, Under, Size, NodeSize;
    var x, y := s[0], t[0];
    var parent := prefix + x.name;
    var a, b := Below(prefix, x, before), Listing(prefix, s[1..], before);
    var c, d := Below(prefix, y, before), Listing(prefix, t[1..], before);
    BelowADirectory(parent + [SLASH], Sorted(x.kind.children, before), before, parent);
    BelowADirectory(parent + [SLASH], Sorted(y.kind.children, before), before, parent);
    BesideADirectory(prefix, s, before);
    BesideADirectory(prefix, t, before);
    var rows := Listing(prefix, s, before);
    assert rows[1..] == a + b by {
      assert rows == [Entry(parent, Executable(x.mode), DirectoryBody)] + a + b;
    }
    assert rows[1..] == c + d by {
      assert rows == [Entry(parent, Executable(y.mode), DirectoryBody)] + c + d;
    }
    OneSplit(a, b, c, d, parent);
  }

  lemma {:induction false} DirectoryDetermines(prefix: Bytes, s: seq<Node>, t: seq<Node>, before: Order)
    requires Sorting.StrictTotal(before)
    requires WellNamed(s) && WellNamed(t) && Clean(s) && Clean(t) && s != [] && t != []
    requires Listing(prefix, s, before) == Listing(prefix, t, before)
    requires s[0].name == t[0].name && Executable(s[0].mode) == Executable(t[0].mode)
    requires s[0].kind.Directory? && t[0].kind.Directory?
    ensures SameNode(s[0], t[0])
    ensures Listing(prefix, s[1..], before) == Listing(prefix, t[1..], before)
    decreases Size(s), 0
  {
    hide Sorted, Listing, Executable, Same, Aligned;
    DirectoryRows(prefix, s, t, before);
    var x, y := s[0], t[0];
    assert WellNamedNode(x) && WellNamedNode(y) && CleanNode(x) && CleanNode(y);
    var v, w := x.kind.children, y.kind.children;
    SortedNames(v, before);
    SortedNames(w, before);
    CleanSorted(v, before);
    CleanSorted(w, before);
    SortKeepsSize(v, before);
    assert Size(s) == NodeSize(x) + Size(s[1..]);
    ListingDetermines(prefix + x.name + [SLASH], Sorted(v, before), Sorted(w, before), before);
    AlignedThenSame(v, w, before);
  }

  /**
   * Two acceptable releases feed the same bytes to the hash if and only if they are the same tree: the
   * same names, types, executable bits, contents and link targets, in whatever order siblings were read.
   */
  lemma StreamIdentifiesTheTree(a: seq<Node>, b: seq<Node>, before: Order)
    requires Sorting.StrictTotal(before) && WellNamed(a) && WellNamed(b) && Clean(a) && Clean(b)
    ensures Stream(a, before) == Stream(b, before) <==> Same(a, b)
  {
    hide WellNamed, Clean, Same, Listing, Encode, Sorted;
    var s, t := Sorted(a, before), Sorted(b, before);
    SortedNames(a, before);
    SortedNames(b, before);
    if Same(a, b) {
      SameThenAligned(a, b, before);
      AlignedListing([], s, t, before);
    }
    if Stream(a, before) == Stream(b, before) {
      StreamsAreUniquelyDecodable(Listing([], s, before), Listing([], t, before));
      CleanSorted(a, before);
      CleanSorted(b, before);
      ListingDetermines([], s, t, before);
      AlignedThenSame(a, b, before);
    }
  }

  lemma CleanSorted(s: seq<Node>, before: Order)
    ensures Clean(Sorted(s, before)) == Clean(s)
  {
    Sorting.Members(Sorted(s, before), s);
  }
}
