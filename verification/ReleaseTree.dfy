/**
 * Walking a release directory and digesting it (src/modules/installation/release-tree.ts:
 * collectReleaseTreeEntries, digestReleaseTree).
 *
 * A directory is the sequence in which `readdir` happens to return its children. Whether a symlink stays
 * inside the release is one observed fact of the link.
 */
module ReleaseTree {
  import opened Base
  import opened DigestStream
  import Sorting

  datatype Node = Node(name: Bytes, mode: nat, kind: Kind)

  datatype Kind =
    | Directory(children: seq<Node>)
    | File(content: Bytes)
    | Symlink(target: Bytes, inside: bool)
    | Special

  type Order = (Bytes, Bytes) -> bool

  function NameOf(n: Node): Bytes {
    n.name
  }

  function Sorted(s: seq<Node>, before: Order): (r: seq<Node>)
    ensures multiset(r) == multiset(s)
  {
    Sorting.Sort(s, NameOf, before)
  }

  /** `mode & 0o111`. */
  function Executable(mode: nat): nat {
    mode / 64 % 2 * 64 + mode / 8 % 2 * 8 + mode % 2
  }

  function Bit(b: bool): nat {
    if b then 1 else 0
  }

  /** Read, write and execute permission of one class of users. */
  datatype Permissions = Permissions(r: bool, w: bool, x: bool)

  function Digit(p: Permissions): nat {
    4 * Bit(p.r) + 2 * Bit(p.w) + Bit(p.x)
  }

  /** A mode as the file system composes it: file type and special bits above three permission digits. */
  function ModeOf(above: nat, owner: Permissions, group: Permissions, others: Permissions): nat {
    512 * above + 64 * Digit(owner) + 8 * Digit(group) + Digit(others)
  }

  /** Splitting off one digit. */
  lemma DigitSplits(front: nat, digit: nat)
    requires digit < 8
    ensures (8 * front + digit) / 8 == front && (8 * front + digit) % 2 == digit % 2
  {
    assert 8 * front + digit == 2 * (4 * front + digit / 2) + digit % 2;
  }

  lemma DigitsOfAMode(above: nat, owner: nat, group: nat, others: nat)
    requires owner < 8 && group < 8 && others < 8
    ensures var mode := 512 * above + 64 * owner + 8 * group + others;
            && mode / 64 == 8 * above + owner && mode / 8 == 64 * above + 8 * owner + group
            && mode / 64 % 2 == owner % 2 && mode / 8 % 2 == group % 2 && mode % 2 == others % 2
  {
    var upper := 8 * above + owner;
    var middle := 8 * upper + group;
    var mode := 8 * middle + others;
    DigitSplits(above, owner);
    DigitSplits(upper, group);
    DigitSplits(middle, others);
    Twice(mode);
  }

  lemma Twice(n: nat)
    ensures n / 64 == n / 8 / 8
  {
  }

  function PermissionsOf(digit: nat): (p: Permissions)
    requires digit < 8
    ensures Digit(p) == digit
  {
    Permissions(digit >= 4, digit % 4 >= 2, digit % 2 == 1)
  }

  ghost predicate Composed(mode: nat) {
    exists above, owner, group, others :: mode == ModeOf(above, owner, group, others)
  }

  lemma EveryModeIsComposed(mode: nat)
    ensures Composed(mode)
  {
    var owner, group, others := mode / 64 % 8, mode / 8 % 8, mode % 8;
    assert mode / 8 / 8 == mode / 64 && mode / 64 / 8 == mode / 512;
    assert mode == ModeOf(mode / 512, PermissionsOf(owner), PermissionsOf(group), PermissionsOf(others));
  }

  /** Of a mode exactly the three execute bits are kept, each in its place. */
  lemma ExecuteBitsAreKept(above: nat, owner: Permissions, group: Permissions, others: Permissions)
    ensures Executable(ModeOf(above, owner, group, others)) == 64 * Bit(owner.x) + 8 * Bit(group.x) + Bit(others.x)
  {
    DigitsOfAMode(above, Digit(owner), Digit(group), Digit(others));
    LastBit(owner);
    LastBit(group);
    LastBit(others);
    hide Digit;
  }

  lemma LastBit(p: Permissions)
    ensures Digit(p) < 8 && Digit(p) % 2 == Bit(p.x)
  {
  }

  /** Two modes count as the same if and only if the three execute bits agree. */
  lemma SameModesIff(above: nat, owner: Permissions, group: Permissions, others: Permissions,
                     above': nat, owner': Permissions, group': Permissions, others': Permissions)
    ensures Executable(ModeOf(above, owner, group, others)) == Executable(ModeOf(above', owner', group', others')) <==>
            owner.x == owner'.x && group.x == group'.x && others.x == others'.x
  {
    ExecuteBitsAreKept(above, owner, group, others);
    ExecuteBitsAreKept(above', owner', group', others');
  }

  function NodeSize(n: Node): nat {
    if n.kind.Directory? then 1 + Size(n.kind.children) else 1
  }

  function Size(s: seq<Node>): nat {
    if s == [] then 0 else NodeSize(s[0]) + Size(s[1..])
  }

  lemma {:induction false} InsertKeepsSize(x: Node, s: seq<Node>, before: Order)
    ensures Size(Sorting.Insert(x, s, NameOf, before)) == NodeSize(x) + Size(s)
  {
    var r := Sorting.Insert(x, s, NameOf, before);
    if s == [] || !before(s[0].name, x.name) {
      assert r[1..] == s;
    } else {
      InsertKeepsSize(x, s[1..], before);
      assert r[1..] == Sorting.Insert(x, s[1..], NameOf, before);
    }
  }

  lemma {:induction false} SortKeepsSize(s: seq<Node>, before: Order)
    ensures Size(Sorted(s, before)) == Size(s)
  {
    if s != [] {
      SortKeepsSize(s[1..], before);
      InsertKeepsSize(s[0], Sorted(s[1..], before), before);
    }
  }

  lemma {:induction false} MemberSize(s: seq<Node>, i: nat)
    requires i < |s|
    ensures NodeSize(s[i]) + Size(s[i + 1..]) <= Size(s[i..]) <= Size(s)
  {
    if i > 0 {
      MemberSize(s[1..], i - 1);
      assert s[1..][i - 1..] == s[i..] && s[1..][i..] == s[i + 1..];
    } else {
      assert s[0..] == s;
    }
  }

  /** No special file and no symlink that leaves the release, at any depth. */
  predicate Clean(s: seq<Node>) {
    forall n :: n in s ==> CleanNode(n)
  }

  predicate CleanNode(n: Node) {
    match n.kind
    case Directory(children) => Clean(children)
    case File(_) => true
    case Symlink(_, inside) => inside
    case Special => false
  }

  /** The node is somewhere in the directory, at any depth. */
  predicate Somewhere(n: Node, s: seq<Node>) {
    exists c :: c in s && InNode(n, c)
  }

  predicate InNode(n: Node, c: Node) {
    c == n || (c.kind.Directory? && Somewhere(n, c.kind.children))
  }

  /** A directory is refused exactly when a special file or a symlink that leaves the release is somewhere in it. */
  lemma {:induction false} CleanIff(s: seq<Node>)
    ensures Clean(s) <==>
            forall n :: Somewhere(n, s) ==> n.kind != Special && (n.kind.Symlink? ==> n.kind.inside)
    decreases s
  {
    forall c | c in s && c.kind.Directory?
      ensures Clean(c.kind.children) <==>
              forall n :: Somewhere(n, c.kind.children) ==> n.kind != Special && (n.kind.Symlink? ==> n.kind.inside)
    {
      CleanIff(c.kind.children);
    }
    forall c | c in s
      ensures Somewhere(c, s)
    {
      assert InNode(c, c);
    }
    forall c, n | c in s && c.kind.Directory? && Somewhere(n, c.kind.children)
      ensures Somewhere(n, s)
    {
      assert InNode(n, c);
    }
  }

  /** What one child contributes to the listing: itself, and below a directory its sorted children. */
  function Emit(prefix: Bytes, n: Node, before: Order): seq<Entry>
    decreases NodeSize(n), 0, 0
  {
    var path := prefix + n.name;
    var mode := Executable(n.mode);
    match n.kind
    case File(content) => [Entry(path, mode, FileBody(content))]
    case Symlink(target, _) => [Entry(path, mode, SymlinkBody(target))]
    case Special => []
    case Directory(children) =>
      SortKeepsSize(children, before);
      [Entry(path, mode, DirectoryBody)] + Listing(path + [SLASH], Sorted(children, before), before)
  }

  /** The listing of children taken in the given order. */
  function Listing(prefix: Bytes, s: seq<Node>, before: Order): seq<Entry>
    decreases Size(s), 1, |s|
  {
    if s == [] then [] else Emit(prefix, s[0], before) + Listing(prefix, s[1..], before)
  }

  /** Everything hashed for the release directory with these children. */
  function Stream(root: seq<Node>, before: Order): Bytes {
    Encode(Listing([], Sorted(root, before), before))
  }

  /** The walk with its growing `entries` list, and the hash with what it was fed. */
  class Digester {
    const before: Order
    var entries: seq<Entry>
    var fed: Bytes

    constructor (before: Order)
      ensures this.before == before && entries == [] && fed == []
    {
      this.before, entries, fed := before, [], [];
    }

    /** `visit`: refuses the tree as soon as it meets a special file or an escaping symlink. */
    method Visit(prefix: Bytes, directory: seq<Node>) returns (ok: bool)
      modifies this`entries
      ensures ok <==> Clean(directory)
      ensures ok ==> entries == old(entries) + Listing(prefix, Sorted(directory, before), before)
      decreases Size(directory), 1
    {
      hide Emit, CleanNode, Sorted;
      var children := Sorted(directory, before);
      SortKeepsSize(directory, before);
      Sorting.Members(children, directory);
      for i := 0 to |children|
        invariant entries + Listing(prefix, children[i..], before) == old(entries) + Listing(prefix, children, before)
        invariant forall k :: 0 <= k < i ==> CleanNode(children[k])
      {
        assert children[i..][1..] == children[i + 1..];
        MemberSize(children, i);
        var good := VisitChild(prefix, children[i]);
        if !good {
          assert children[i] in directory;
          return false;
        }
      }
      assert children[|children|..] == [];
      ok := true;
    }

    /** One turn of the loop of `visit`. */
    method VisitChild(prefix: Bytes, child: Node) returns (ok: bool)
      modifies this`entries
      ensures ok <==> CleanNode(child)
      ensures ok ==> entries == old(entries) + Emit(prefix, child, before)
      decreases NodeSize(child), 0
    {
      hide Listing, Clean, Sorted;
      var path := prefix + child.name;
      var mode := Executable(child.mode);
      match child.kind {
        case Directory(children) =>
          entries := entries + [Entry(path, mode, DirectoryBody)];
          ok := Visit(path + [SLASH], children);
        case File(content) =>
          entries := entries + [Entry(path, mode, FileBody(content))];
          ok := true;
        case Symlink(target, inside) =>
          if inside {
            entries := entries + [Entry(path, mode, SymlinkBody(target))];
          }
          ok := inside;
        case Special =>
          ok := false;
      }
    }

    /** `updateDigestField`: three updates of the hash. */
    method UpdateDigestField(value: Bytes)
      modifies this`fed
      ensures fed == old(fed) + Field(value)
    {
      fed := fed + Numeral(|value|, 10);
      fed := fed + [COLON];
      fed := fed + value;
    }

    /** One turn of the loop of `digestReleaseTree`. */
    method FeedEntry(entry: Entry)
      modifies this`fed
      ensures fed == old(fed) + EncodeEntry(entry)
    {
      hide Field, Numeral, TypeName;
      UpdateDigestField(entry.path);
      UpdateDigestField(TypeName(entry.body));
      UpdateDigestField(Numeral(entry.executableMode, 8));
      match entry.body {
        case DirectoryBody =>
        case FileBody(content) =>
          UpdateDigestField(Numeral(|content|, 10));
          fed := fed + content;
        case SymlinkBody(target) =>
          UpdateDigestField(target);
      }
    }

    /** `digestReleaseTree`: a refused tree feeds nothing, any other exactly its stream. */
    method DigestReleaseTree(root: seq<Node>) returns (ok: bool)
      requires entries == [] && fed == []
      modifies this
      ensures ok <==> Clean(root)
      ensures fed == if ok then Stream(root, before) else []
    {
      hide Clean, Listing, EncodeEntry, Sorted;
      ok := Visit([], root);
      if !ok {
        return;
      }
      for i := 0 to |entries|
        invariant entries == Listing([], Sorted(root, before), before)
        invariant fed + Encode(entries[i..]) == Encode(entries)
      {
        assert entries[i..][1..] == entries[i + 1..];
        FeedEntry(entries[i]);
      }
    }
  }
}
