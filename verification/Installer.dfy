/**
 * Installing a standalone release and switching to it (src/modules/installation/standalone-installer.ts,
 * release-identity.ts).
 *
 * Every file-system operation may work, report an error, or never happen because the installer died just
 * before it. A dead installer changes nothing more, so what a method promises holds at every point at
 * which the process may be stopped. An interrupted build or recursive removal leaves any debris behind.
 */
module Installer {
  import opened Base
  import opened DigestStream
  import opened ReleaseTree
  import opened ReleaseTreeIdentity
  import Sorting

  predicate IsNumber(s: string) {
    s == "0" || (s != [] && '1' <= s[0] <= '9' && forall i :: 0 <= i < |s| ==> '0' <= s[i] <= '9')
  }

  /** A stable semantic version. */
  predicate IsVersion(s: string) {
    exists i, j :: 0 <= i < j < |s| && s[i] == '.' && s[j] == '.'
                   && IsNumber(s[..i]) && IsNumber(s[i + 1..j]) && IsNumber(s[j + 1..])
  }

  /** The decimal numeral of a number, without leading zeros. */
  function Decimal(n: nat): (r: string)
    ensures r != [] && (n > 0 ==> r[0] != '0') && forall i :: 0 <= i < |r| ==> '0' <= r[i] <= '9'
  {
    var last := [('0' as int + n % 10) as char];
    if n < 10 then last else Decimal(n / 10) + last
  }

  function Value(s: string): nat
    requires forall i :: 0 <= i < |s| ==> '0' <= s[i] <= '9'
  {
    if s == [] then 0 else 10 * Value(s[..|s| - 1]) + (s[|s| - 1] as int - '0' as int)
  }

  lemma {:induction false} NumeralOfValue(s: string)
    requires s != [] && '1' <= s[0] <= '9' && forall i :: 0 <= i < |s| ==> '0' <= s[i] <= '9'
    ensures Value(s) > 0 && Decimal(Value(s)) == s
  {
    var front, last := s[..|s| - 1], s[|s| - 1] as int - '0' as int;
    assert s == front + [s[|s| - 1]];
    if front == [] {
      assert Value(front) == 0;
    } else {
      NumeralOfValue(front);
      assert Value(s) / 10 == Value(front) && Value(s) % 10 == last;
    }
  }

  /** A number of a version is the decimal numeral of some natural number. */
  lemma NumberIff(s: string)
    ensures IsNumber(s) <==> exists n: nat :: s == Decimal(n)
  {
    if IsNumber(s) {
      if s == "0" {
        assert Decimal(0) == "0";
      } else {
        NumeralOfValue(s);
      }
    }
    if n: nat :| s == Decimal(n) {
      if n == 0 {
        assert s == "0";
      }
    }
  }

  ghost predicate Dotted(s: string, major: nat, minor: nat, patch: nat) {
    s == Decimal(major) + "." + Decimal(minor) + "." + Decimal(patch)
  }

  lemma DotsSplit(s: string, i: nat, j: nat)
    requires i < j < |s| && s[i] == '.' && s[j] == '.'
    ensures s == s[..i] + "." + s[i + 1..j] + "." + s[j + 1..]
  {
  }

  lemma VersionIsDotted(s: string)
    requires IsVersion(s)
    ensures exists major: nat, minor: nat, patch: nat :: Dotted(s, major, minor, patch)
  {
    var i, j :| 0 <= i < j < |s| && s[i] == '.' && s[j] == '.'
                && IsNumber(s[..i]) && IsNumber(s[i + 1..j]) && IsNumber(s[j + 1..]);
    NumberIff(s[..i]);
    NumberIff(s[i + 1..j]);
    NumberIff(s[j + 1..]);
    hide IsNumber, Decimal;
    var a: nat :| s[..i] == Decimal(a);
    var b: nat :| s[i + 1..j] == Decimal(b);
    var c: nat :| s[j + 1..] == Decimal(c);
    DotsSplit(s, i, j);
    assert Dotted(s, a, b, c);
  }

  lemma DottedIsVersion(s: string, a: nat, b: nat, c: nat)
    requires Dotted(s, a, b, c)
    ensures IsVersion(s)
  {
    NumberIff(Decimal(a));
    NumberIff(Decimal(b));
    NumberIff(Decimal(c));
    hide IsNumber, Decimal;
    var i, j := |Decimal(a)|, |Decimal(a)| + 1 + |Decimal(b)|;
    assert s[..i] == Decimal(a) && s[i + 1..j] == Decimal(b) && s[j + 1..] == Decimal(c);
    assert s[i] == '.' && s[j] == '.';
  }

  /** The versions are exactly three decimal numerals joined by dots. */
  lemma VersionIff(s: string)
    ensures IsVersion(s) <==> exists major: nat, minor: nat, patch: nat :: Dotted(s, major, minor, patch)
  {
    hide IsVersion, Dotted;
    if IsVersion(s) {
      VersionIsDotted(s);
    }
    if a: nat, b: nat, c: nat :| Dotted(s, a, b, c) {
      DottedIsVersion(s, a, b, c);
    }
  }

  predicate IsHex(s: string, length: nat) {
    |s| == length && forall i :: 0 <= i < |s| ==> 'a' <= s[i] <= 'f' || '0' <= s[i] <= '9'
  }

  /** `isStandaloneReleaseName`: a version, a dash and 64 hexadecimal digits. */
  predicate IsReleaseName(s: string) {
    && |s| > 65 && s[|s| - 65] == '-'
    && IsVersion(s[..|s| - 65]) && IsHex(s[|s| - 64..], 64)
  }

  /** `createStandaloneReleaseName`. */
  function ReleaseName(version: string, digest: string): Option<string> {
    if IsVersion(version) && IsHex(digest, 64) then Some(version + "-" + digest) else None
  }

  const STAGING := ".staging-"

  predicate IsStagingName(s: string) {
    STAGING <= s && IsHex(s[|STAGING|..], 32)
  }

  const RELEASES := "releases/"

  predicate IsReleaseTarget(target: string) {
    RELEASES <= target && IsReleaseName(target[|RELEASES|..])
  }

  /** A release name parses back to its digest, and is never the name of a staging directory. */
  lemma ReleaseNames(version: string, digest: string, staging: string)
    requires ReleaseName(version, digest).Some? && IsStagingName(staging)
    ensures var name := ReleaseName(version, digest).value;
            && IsReleaseName(name) && name[|name| - 64..] == digest && name != staging
            && IsReleaseTarget(RELEASES + name) && (RELEASES + name)[|RELEASES|..] == name
    ensures !IsReleaseName(staging)
  {
    var name := ReleaseName(version, digest).value;
    assert name[..|name| - 65] == version && name[|name| - 64..] == digest;
    assert (RELEASES + name)[|RELEASES|..] == name;
    StagingIsNoRelease(staging);
  }

  lemma StagingIsNoRelease(staging: string)
    requires IsStagingName(staging)
    ensures !IsReleaseName(staging)
  {
  }

  datatype Item = Tree(root: seq<Node>) | NotADirectory

  datatype Link = Absent | To(target: string) | NotALink

  /** What the installer leaves for others to see. */
  datatype Disk = Disk(releases: map<string, Item>, current: Link)

  /** How trees are hashed. */
  datatype Hashing = Hashing(sha: Bytes -> string, before: Order)

  /** `current` may be replaced: it is absent, or a link to some release. */
  predicate CanSwitch(current: Link) {
    current.Absent? || (current.To? && IsReleaseTarget(current.target))
  }

  /** A directory that can be digested, to this digest. */
  predicate HasDigest(item: Item, digest: string, hashing: Hashing) {
    item.Tree? && Clean(item.root) && digest == hashing.sha(Stream(item.root, hashing.before))
  }

  /** A present release whose tree has the digest in its name. */
  predicate Genuine(name: string, releases: map<string, Item>, hashing: Hashing) {
    IsReleaseName(name) && name in releases && HasDigest(releases[name], name[|name| - 64..], hashing)
  }

  /** `current` points at a genuine release. */
  predicate Points(d: Disk, hashing: Hashing) {
    && d.current.To? && RELEASES <= d.current.target
    && Genuine(d.current.target[|RELEASES|..], d.releases, hashing)
  }

  predicate Safe(d: Disk, hashing: Hashing) {
    d.current.Absent? || Points(d, hashing)
  }

  predicate SweepableStaging(releases: map<string, Item>) {
    forall n :: n in releases && IsStagingName(n) ==> releases[n].Tree?
  }

  /** No installed release is removed or altered. */
  predicate Keeps(before: map<string, Item>, after: map<string, Item>) {
    forall n :: n in before && IsReleaseName(n) ==> n in after && after[n] == before[n]
  }

  /** Whatever release was added is genuine. */
  predicate AddsGenuine(before: map<string, Item>, after: map<string, Item>, hashing: Hashing) {
    forall n :: n in after && n !in before && IsReleaseName(n) ==> Genuine(n, after, hashing)
  }

  /** What any installer run, stopped anywhere, does to the disk. */
  predicate Evolves(d: Disk, e: Disk, hashing: Hashing) {
    && Keeps(d.releases, e.releases) && AddsGenuine(d.releases, e.releases, hashing)
    && (e.current == d.current || Points(e, hashing))
  }

  lemma EvolvesKeepsSafe(d: Disk, e: Disk, hashing: Hashing)
    requires Safe(d, hashing) && Evolves(d, e, hashing)
    ensures Safe(e, hashing)
    ensures d.current.To? ==> e.current.To?
  {
  }

  lemma KeptReleasesStayGenuine(name: string, a: map<string, Item>, b: map<string, Item>, hashing: Hashing)
    requires Keeps(a, b) && Genuine(name, a, hashing)
    ensures Genuine(name, b, hashing)
  {
  }

  lemma EvolvesTransitive(d: Disk, e: Disk, f: Disk, hashing: Hashing)
    requires Evolves(d, e, hashing) && Evolves(e, f, hashing)
    ensures Evolves(d, f, hashing)
  {
    hide Genuine, IsReleaseName;
    forall n | n in f.releases && n !in d.releases && IsReleaseName(n)
      ensures Genuine(n, f.releases, hashing)
    {
      if n in e.releases {
        KeptReleasesStayGenuine(n, e.releases, f.releases, hashing);
      }
    }
    if e.current != d.current {
      KeptReleasesStayGenuine(e.current.target[|RELEASES|..], e.releases, f.releases, hashing);
    }
  }

  /** Two genuine releases of one name hold the same tree, when the hash has no collision on them. */
  lemma OneNameOneTree(name: string, a: map<string, Item>, b: map<string, Item>, hashing: Hashing)
    requires Genuine(name, a, hashing) && Genuine(name, b, hashing) && Sorting.StrictTotal(hashing.before)
    requires WellNamed(a[name].root) && WellNamed(b[name].root)
    requires var x, y := Stream(a[name].root, hashing.before), Stream(b[name].root, hashing.before);
             hashing.sha(x) == hashing.sha(y) ==> x == y
    ensures Same(a[name].root, b[name].root)
  {
    StreamIdentifiesTheTree(a[name].root, b[name].root, hashing.before);
  }

  datatype Fate = Works | Fails | Dies

  /** What one run is asked to install, and the random names it draws. */
  datatype Request = Request(version: string, tree: seq<Node>, hasExecutable: bool, staging: string, temporary: string)

  datatype Installed = Installed(releaseName: string, reused: bool)

  class Installation {
    const hashing: Hashing
    const fate: nat -> Fate
    const debris: nat -> seq<Node>
    var operations: nat
    var alive: bool
    var releases: map<string, Item>
    var current: Link
    var temporaries: map<string, string>
    var publicLink: Link

    constructor (hashing: Hashing, fate: nat -> Fate, debris: nat -> seq<Node>,
                 releases: map<string, Item>, current: Link, publicLink: Link)
      ensures this.hashing == hashing && this.fate == fate && this.debris == debris
      ensures this.releases == releases && this.current == current && this.publicLink == publicLink
      ensures alive && temporaries == map[]
    {
      this.hashing, this.fate, this.debris := hashing, fate, debris;
      this.releases, this.current, this.publicLink := releases, current, publicLink;
      operations, alive, temporaries := 0, true, map[];
    }

    function Seen(): Disk
      reads this`releases, this`current
    {
      Disk(releases, current)
    }

    /** The process is running and no operation will fail. */
    ghost predicate Smooth()
      reads this`alive
    {
      alive && forall n :: fate(n) == Works
    }

    /** Whether the next operation takes place. */
    method Operate() returns (ok: bool)
      modifies this`operations, this`alive
      ensures ok ==> alive
      ensures !old(alive) ==> !ok && !alive
      ensures old(Smooth()) ==> ok && Smooth()
    {
      ok := alive && fate(operations) == Works;
      alive := alive && fate(operations) != Dies;
      operations := operations + 1;
    }

    /** `rm` of a staging directory: a failed or interrupted removal leaves debris of it. */
    method RemoveStaging(name: string) returns (ok: bool)
      requires IsStagingName(name)
      modifies this`operations, this`alive, this`releases
      ensures ok ==> releases == old(releases) - {name}
      ensures releases - {name} == old(releases) - {name}
      ensures name !in old(releases) ==> name !in releases
      ensures ok ==> alive
      ensures old(Smooth()) ==> ok && Smooth()
    {
      var wasAlive, left := alive, debris(operations);
      ok := Operate();
      if ok {
        releases := releases - {name};
      } else if wasAlive && name in releases && releases[name].Tree? {
        releases := releases[name := Tree(left)];
      }
    }

    /** `removeStaleStagingDirectories`. */
    method RemoveStale() returns (ok: bool)
      modifies this`operations, this`alive, this`releases
      ensures forall n :: !IsStagingName(n) ==> (n in releases <==> n in old(releases))
      ensures forall n :: !IsStagingName(n) && n in releases ==> releases[n] == old(releases)[n]
      ensures ok ==> forall n :: n in releases ==> !IsStagingName(n)
      ensures old(Smooth()) && SweepableStaging(old(releases)) ==> ok && Smooth()
    {
      var names := releases.Keys;
      while names != {}
        invariant forall n :: !IsStagingName(n) ==> (n in releases <==> n in old(releases))
        invariant forall n :: !IsStagingName(n) && n in releases ==> releases[n] == old(releases)[n]
        invariant forall n :: n in releases && IsStagingName(n) ==> n in names
        invariant forall n :: n in releases ==> n in old(releases) && releases[n] == old(releases)[n]
        invariant old(Smooth()) ==> Smooth()
        decreases |names|
      {
        var name :| name in names;
        if IsStagingName(name) && name in releases {
          if releases[name] == NotADirectory {
            return false;
          }
          ghost var was := releases;
          var removed := RemoveStaging(name);
          assert forall n :: n != name ==> (n in releases <==> n in releases - {name});
          assert forall n :: n != name ==> (n in was <==> n in was - {name});
          assert forall n :: n != name && n in was ==> (was - {name})[n] == was[n];
          assert forall n :: n != name && n in releases ==> (releases - {name})[n] == releases[n];
          if !removed {
            return false;
          }
        }
        names := names - {name};
      }
      ok := true;
    }

    /** `mkdir` and `buildStandaloneDeployment`: on success staging holds the tree and its digest is known. */
    method Stage(request: Request) returns (digest: Option<string>)
      requires IsStagingName(request.staging)
      modifies this`operations, this`alive, this`releases
      ensures forall n :: n != request.staging ==> (n in releases <==> n in old(releases))
      ensures forall n :: n != request.staging && n in releases ==> releases[n] == old(releases)[n]
      ensures digest.Some? ==>
                && request.staging in releases && releases[request.staging] == Tree(request.tree)
                && HasDigest(Tree(request.tree), digest.value, hashing)
      ensures old(Smooth()) && request.staging !in old(releases) && Clean(request.tree) ==> digest.Some? && Smooth()
    {
      if request.staging in releases {
        return None;
      }
      var made := Operate();
      if !made {
        return None;
      }
      releases := releases[request.staging := Tree([])];
      var left := debris(operations);
      var built := Operate();
      releases := releases[request.staging := Tree(if built then request.tree else left)];
      if !built {
        return None;
      }
      var digester := new Digester(hashing.before);
      var clean := digester.DigestReleaseTree(request.tree);
      if !clean {
        return None;
      }
      digest := Some(hashing.sha(digester.fed));
    }

    /** `verifyExistingRelease`. */
    method VerifyExisting(name: string, digest: string) returns (ok: bool)
      requires name in releases
      modifies this`operations, this`alive
      ensures ok ==> HasDigest(releases[name], digest, hashing)
      ensures old(Smooth()) ==> Smooth()
      ensures old(Smooth()) && HasDigest(releases[name], digest, hashing) ==> ok
    {
      ok := Operate();
      if !ok || releases[name] == NotADirectory {
        return false;
      }
      var digester := new Digester(hashing.before);
      ok := digester.DigestReleaseTree(releases[name].root);
      ok := ok && hashing.sha(digester.fed) == digest;
    }

    /** `replaceCurrentReleaseLink`: a temporary link renamed over `current`, then removed if still there. */
    method ReplaceCurrent(name: string, temporary: string) returns (ok: bool)
      modifies this`operations, this`alive, this`current, this`temporaries
      ensures current == old(current) || current == To(RELEASES + name)
      ensures ok ==> current == To(RELEASES + name) && temporary !in temporaries
      ensures !CanSwitch(old(current)) ==> !ok && current == old(current)
      ensures !old(alive) ==> current == old(current)
      ensures old(Smooth()) && CanSwitch(old(current)) && temporary !in old(temporaries) ==> ok && Smooth()
    {
      if !CanSwitch(current) {
        return false;
      }
      var linked := Operate();
      if linked && temporary !in temporaries {
        temporaries := temporaries[temporary := RELEASES + name];
        ok := Operate();
        if ok {
          current := To(temporaries[temporary]);
          temporaries := temporaries - {temporary};
        }
      } else {
        ok := false;
      }
      var removed := Operate();
      if removed {
        temporaries := temporaries - {temporary};
      }
      ok := ok && removed;
    }

    /** `ensureStablePublicExecutable`. */
    method EnsurePublic(expected: string) returns (ok: bool)
      modifies this`operations, this`alive, this`publicLink
      ensures ok ==> publicLink == To(expected)
      ensures publicLink == old(publicLink) || (old(publicLink) == Absent && publicLink == To(expected))
      ensures old(Smooth()) && (old(publicLink) == Absent || old(publicLink) == To(expected)) ==> ok && Smooth()
    {
      if publicLink != Absent {
        return publicLink == To(expected);
      }
      ok := Operate();
      if ok {
        publicLink := To(expected);
      }
    }

    /** `activateStandaloneRelease` for a release already verified. */
    method Activate(name: string, hasExecutable: bool, temporary: string) returns (ok: bool)
      modifies this`operations, this`alive, this`current, this`temporaries, this`publicLink
      ensures current == old(current) || current == To(RELEASES + name)
      ensures ok ==> current == To(RELEASES + name) && publicLink == To(PUBLIC_TARGET) && IsReleaseName(name)
      ensures old(Smooth()) && IsReleaseName(name) && hasExecutable && old(Switchable(temporary)) ==> ok && Smooth()
    {
      if !IsReleaseName(name) || !hasExecutable {
        return false;
      }
      var stable := EnsurePublic(PUBLIC_TARGET);
      if !stable {
        return false;
      }
      var replaced := ReplaceCurrent(name, temporary);
      if !replaced {
        return false;
      }
      ok := Operate();
      ok := ok && publicLink == To(PUBLIC_TARGET) && current == To(RELEASES + name);
    }

    /** Put the staged tree under its release name, or check the release that is already there. */
    method Publish(staging: string, name: string, digest: string) returns (r: Option<bool>)
      requires IsStagingName(staging) && IsReleaseName(name) && name[|name| - 64..] == digest
      requires staging in releases && HasDigest(releases[staging], digest, hashing)
      modifies this`operations, this`alive, this`releases
      ensures Keeps(old(releases), releases) && AddsGenuine(old(releases), releases, hashing)
      ensures r.Some? ==> Genuine(name, releases, hashing) && r.value == (name in old(releases)) && staging !in releases
      ensures old(Smooth()) && (name !in old(releases) || Genuine(name, old(releases), hashing)) ==> r.Some? && Smooth()
    {
      StagingIsNoRelease(staging);
      if name !in releases {
        var renamed := Operate();
        if !renamed {
          return None;
        }
        releases := (releases - {staging})[name := releases[staging]];
        return Some(false);
      }
      var verified := VerifyExisting(name, digest);
      if !verified {
        return None;
      }
      ghost var was := releases;
      assert Genuine(name, was, hashing);
      var removed := RemoveStaging(staging);
      OthersKept(was, releases, staging);
      KeptReleasesStayGenuine(name, was, releases, hashing);
      r := if removed then Some(true) else None;
    }

    /** The catch block of `installStandalone`. */
    method CleanUp(staging: string, ghost start: Disk)
      requires IsStagingName(staging) && Evolves(start, Seen(), hashing)
      modifies this`operations, this`alive, this`releases
      ensures Evolves(start, Seen(), hashing)
    {
      hide Evolves, IsStagingName, Keeps;
      ghost var releasesWere := releases;
      var _ := RemoveStaging(staging);
      OthersKept(releasesWere, releases, staging);
      StillEvolves(start, releasesWere, Seen(), hashing);
    }

    /**
     * `installStandalone`. Stopped anywhere, it has only ever added genuine releases, removed none, and
     * left `current` alone or pointing at a genuine release. A run that succeeds points at the requested one.
     */
    method Install(request: Request, lockFree: bool, lockReleased: bool) returns (r: Option<Installed>)
      requires IsStagingName(request.staging)
      modifies this
      ensures Evolves(old(Seen()), Seen(), hashing)
      ensures r.Some? ==>
                var digest := hashing.sha(Stream(request.tree, hashing.before));
                && ReleaseName(request.version, digest) == Some(r.value.releaseName)
                && current == To(RELEASES + r.value.releaseName) && Points(Seen(), hashing)
                && r.value.reused == (r.value.releaseName in old(releases))
                && request.staging !in releases && publicLink == To(PUBLIC_TARGET)
      ensures !lockFree ==> r == None && Seen() == old(Seen())
      ensures lockFree && lockReleased && old(Ready(request)) ==> r.Some?
    {
      assert Evolves(Seen(), Seen(), hashing);
      hide *;
      alive := true;
      if !lockFree {
        return None;
      }
      r := Deploy(request);
      if r.None? {
        CleanUp(request.staging, old(Seen()));
      }
      if !lockReleased {
        r := None;
      }
    }

    /** Sweep old staging directories and stage the tree. */
    method Prepare(request: Request) returns (digest: Option<string>)
      requires IsStagingName(request.staging)
      modifies this`operations, this`alive, this`releases
      ensures Keeps(old(releases), releases) && Keeps(releases, old(releases))
      ensures digest.Some? ==>
                && request.staging in releases && releases[request.staging] == Tree(request.tree)
                && HasDigest(Tree(request.tree), digest.value, hashing)
      ensures old(Smooth()) && SweepableStaging(old(releases)) && Clean(request.tree) ==> digest.Some? && Smooth()
    {
      hide IsReleaseName, IsStagingName, Clean;
      AllStagingIsNoRelease();
      var swept := RemoveStale();
      if !swept {
        return None;
      }
      digest := Stage(request);
    }

    /** Nothing stands in the way of moving `current`. */
    predicate Switchable(temporary: string)
      reads this`current, this`temporaries, this`publicLink
    {
      && CanSwitch(current) && temporary !in temporaries
      && (publicLink == Absent || publicLink == To(PUBLIC_TARGET))
    }

    /** Nothing stands in the way of the request. */
    ghost predicate Ready(request: Request)
      reads this`releases, this`current, this`temporaries, this`publicLink
    {
      var name := ReleaseName(request.version, hashing.sha(Stream(request.tree, hashing.before)));
      && (forall n :: fate(n) == Works)
      && name.Some? && Clean(request.tree) && request.hasExecutable
      && (name.value !in releases || Genuine(name.value, releases, hashing))
      && SweepableStaging(releases) && Switchable(request.temporary)
    }

    /** The guarded part of `installStandalone`. */
    method Deploy(request: Request) returns (r: Option<Installed>)
      requires IsStagingName(request.staging)
      modifies this`operations, this`alive, this`releases, this`current, this`temporaries, this`publicLink
      ensures Evolves(old(Seen()), Seen(), hashing)
      ensures r.Some? ==>
                var digest := hashing.sha(Stream(request.tree, hashing.before));
                && ReleaseName(request.version, digest) == Some(r.value.releaseName)
                && current == To(RELEASES + r.value.releaseName) && Points(Seen(), hashing)
                && r.value.reused == (r.value.releaseName in old(releases))
                && request.staging !in releases && publicLink == To(PUBLIC_TARGET)
      ensures old(alive) && old(Ready(request)) ==> r.Some?
    {
      hide IsReleaseName, Genuine, IsStagingName, Clean, ReleaseName, Stream;
      ghost var start := Seen();
      var digest := Prepare(request);
      ghost var staged := Seen();
      StillEvolves(start, start.releases, staged, hashing);
      if digest.None? {
        return None;
      }
      var name := ReleaseName(request.version, digest.value);
      if name.None? {
        return None;
      }
      ReleaseNames(request.version, digest.value, request.staging);
      assert name.value in staged.releases <==> name.value in start.releases;
      if name.value in start.releases && Genuine(name.value, start.releases, hashing) {
        KeptReleasesStayGenuine(name.value, start.releases, staged.releases, hashing);
      }
      var reused := Publish(request.staging, name.value, digest.value);
      ghost var published := Seen();
      EvolvesTransitive(start, staged, published, hashing);
      if reused.None? {
        return None;
      }
      var active := Activate(name.value, request.hasExecutable, request.temporary);
      assert Points(Disk(releases, To(RELEASES + name.value)), hashing);
      r := if active then Some(Installed(name.value, reused.value)) else None;
    }
  }

  const PUBLIC_TARGET := "current/bin/git-commits-push.mjs"

  lemma AllStagingIsNoRelease()
    ensures forall n :: IsStagingName(n) ==> !IsReleaseName(n)
  {
    forall n | IsStagingName(n)
      ensures !IsReleaseName(n)
    {
      StagingIsNoRelease(n);
    }
  }

  /** Changing one staging entry keeps every release. */
  lemma OthersKept(a: map<string, Item>, b: map<string, Item>, staging: string)
    requires IsStagingName(staging) && a - {staging} == b - {staging}
    ensures Keeps(a, b) && Keeps(b, a)
  {
    hide IsReleaseName, IsStagingName;
    StagingIsNoRelease(staging);
    forall n | n != staging
      ensures n in a <==> n in b
      ensures n in a ==> a[n] == b[n]
    {
      assert n in a <==> n in a - {staging};
      assert n in b <==> n in b - {staging};
      assert n in a ==> a[n] == (a - {staging})[n];
      assert n in b ==> b[n] == (b - {staging})[n];
    }
  }

  lemma StillEvolves(d: Disk, was: map<string, Item>, e: Disk, hashing: Hashing)
    requires Evolves(d, Disk(was, e.current), hashing)
    requires Keeps(was, e.releases) && Keeps(e.releases, was)
    ensures Evolves(d, e, hashing)
  {
    hide Genuine, IsReleaseName;
    forall n | n in e.releases && n !in d.releases && IsReleaseName(n)
      ensures Genuine(n, e.releases, hashing)
    {
      KeptReleasesStayGenuine(n, was, e.releases, hashing);
    }
    if e.current != d.current {
      KeptReleasesStayGenuine(e.current.target[|RELEASES|..], was, e.releases, hashing);
    }
  }

  /**
   * Any sequence of installs, each possibly failing or stopped between two operations, serialised by the
   * lock: `current` is absent or names a genuine release, no installed release is removed or altered, and
   * `current` is never lost.
   */
  method InstallAll(installation: Installation, requests: seq<Request>, locks: seq<(bool, bool)>)
    requires |locks| == |requests| && forall q :: q in requests ==> IsStagingName(q.staging)
    requires Safe(installation.Seen(), installation.hashing)
    modifies installation
    ensures Safe(installation.Seen(), installation.hashing)
    ensures Keeps(old(installation.releases), installation.releases)
    ensures old(installation.current).To? ==> installation.current.To?
  {
    ghost var start := installation.Seen();
    assert Evolves(start, start, installation.hashing);
    for i := 0 to |requests|
      invariant Evolves(start, installation.Seen(), installation.hashing)
    {
      ghost var was := installation.Seen();
      var _ := installation.Install(requests[i], locks[i].0, locks[i].1);
      EvolvesTransitive(start, was, installation.Seen(), installation.hashing);
    }
    EvolvesKeepsSafe(start, installation.Seen(), installation.hashing);
  }
}
