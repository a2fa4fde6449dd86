/**
 * The byte stream that is hashed into a release digest, and a decoder for it
 * (src/modules/installation/release-tree.ts: updateDigestField, digestReleaseTree).
 */
module DigestStream {
  import opened Base

  const COLON: byte := 58
  const SLASH: byte := 47

  function Ascii(s: string): (r: Bytes)
    ensures |r| == |s|
  {
    seq(|s|, i requires 0 <= i < |s| => (s[i] as int % 256) as byte)
  }

  type Radix = b: int | b == 8 || b == 10 witness 8

  predicate IsDigit(b: byte) {
    48 <= b <= 57
  }

  /** `String(n)` and `n.toString(8)`. */
  function Numeral(n: nat, base: Radix): (r: Bytes)
    ensures r != [] && forall i :: 0 <= i < |r| ==> IsDigit(r[i])
  {
    var last := [(48 + n % base) as byte];
    if n < base then last else Numeral(n / base, base) + last
  }

  function ReadNumeral(s: Bytes, base: Radix): Option<nat> {
    if s == [] then Some(0)
    else if !IsDigit(s[|s| - 1]) then None
    else
      match ReadNumeral(s[..|s| - 1], base)
      case None => None
      case Some(front) => Some(front * base + (s[|s| - 1] as int - 48))
  }

  lemma {:induction false} NumeralReadsBack(n: nat, base: Radix)
    ensures ReadNumeral(Numeral(n, base), base) == Some(n)
  {
    var s := Numeral(n, base);
    if n < base {
      assert s[..|s| - 1] == [];
    } else {
      NumeralReadsBack(n / base, base);
      assert s[..|s| - 1] == Numeral(n / base, base);
    }
  }

  /** One length-prefixed field: the byte length in decimal, a colon, the bytes. */
  function Field(value: Bytes): Bytes {
    Numeral(|value|, 10) + [COLON] + value
  }

  /** Position of the first colon, or the length when there is none. */
  function FirstColon(s: Bytes): (k: nat)
    ensures k <= |s| && (k < |s| ==> s[k] == COLON) && forall i :: 0 <= i < k ==> s[i] != COLON
  {
    if s == [] || s[0] == COLON then 0 else 1 + FirstColon(s[1..])
  }

  /** Read `count` raw bytes. */
  function Take(s: Bytes, count: nat): (r: Option<(Bytes, Bytes)>)
    ensures r.Some? ==> |r.value.1| <= |s|
  {
    if count <= |s| then Some((s[..count], s[count..])) else None
  }

  /** Read one field, leaving the rest. */
  function ReadField(s: Bytes): (r: Option<(Bytes, Bytes)>)
    ensures r.Some? ==> |r.value.1| < |s|
  {
    var k := FirstColon(s);
    if k == |s| then None
    else
      match ReadNumeral(s[..k], 10)
      case None => None
      case Some(length) => Take(s[k + 1..], length)
  }

  lemma FieldReadsBack(value: Bytes, rest: Bytes)
    ensures ReadField(Field(value) + rest) == Some((value, rest))
  {
    var n := Numeral(|value|, 10);
    var s := Field(value) + rest;
    assert s[|n|] == COLON;
    assert forall i :: 0 <= i < |n| ==> s[i] == n[i] && IsDigit(s[i]);
    assert FirstColon(s) == |n|;
    assert s[..|n|] == n;
    NumeralReadsBack(|value|, 10);
    assert s[|n| + 1..] == value + rest;
  }

  datatype Body = DirectoryBody | FileBody(content: Bytes) | SymlinkBody(target: Bytes)

  /** One row of a release listing. */
  datatype Entry = Entry(path: Bytes, executableMode: nat, body: Body)

  function TypeName(body: Body): Bytes {
    match body
    case DirectoryBody => Ascii("directory")
    case FileBody(_) => Ascii("file")
    case SymlinkBody(_) => Ascii("symlink")
  }

  function EncodeBody(body: Body): Bytes {
    match body
    case DirectoryBody => []
    case FileBody(content) => Field(Numeral(|content|, 10)) + content
    case SymlinkBody(target) => Field(target)
  }

  function EncodeEntry(e: Entry): Bytes {
    Field(e.path) + (Field(TypeName(e.body)) + (Field(Numeral(e.executableMode, 8)) + EncodeBody(e.body)))
  }

  /** Everything fed to the hash, in order. */
  function Encode(entries: seq<Entry>): Bytes {
    if entries == [] then [] else EncodeEntry(entries[0]) + Encode(entries[1..])
  }

  function ReadBody(kind: Bytes, s: Bytes): (r: Option<(Body, Bytes)>)
    ensures r.Some? ==> |r.value.1| <= |s|
  {
    if kind == Ascii("directory") then Some((DirectoryBody, s))
    else if kind == Ascii("file") then
      match ReadField(s)
      case None => None
      case Some((length, after)) =>
        match ReadNumeral(length, 10)
        case None => None
        case Some(count) =>
          match Take(after, count)
          case None => None
          case Some((content, rest)) => Some((FileBody(content), rest))
    else if kind == Ascii("symlink") then
      match ReadField(s)
      case None => None
      case Some((target, rest)) => Some((SymlinkBody(target), rest))
    else None
  }

  function ReadEntry(s: Bytes): (r: Option<(Entry, Bytes)>)
    ensures r.Some? ==> |r.value.1| < |s|
  {
    match ReadField(s)
    case None => None
    case Some((path, afterPath)) =>
      match ReadField(afterPath)
      case None => None
      case Some((kind, afterKind)) =>
        match ReadField(afterKind)
        case None => None
        case Some((modeDigits, afterMode)) =>
          match ReadNumeral(modeDigits, 8)
          case None => None
          case Some(mode) =>
            match ReadBody(kind, afterMode)
            case None => None
            case Some((body, rest)) => Some((Entry(path, mode, body), rest))
  }

  /** A decoder for the stream; no such decoder exists in the program, which only hashes. */
  function Decode(s: Bytes): Option<seq<Entry>>
    decreases |s|
  {
    if s == [] then Some([])
    else
      match ReadEntry(s)
      case None => None
      case Some((entry, rest)) =>
        match Decode(rest)
        case None => None
        case Some(entries) => Some([entry] + entries)
  }

  lemma BodyReadsBack(body: Body, rest: Bytes)
    ensures ReadBody(TypeName(body), EncodeBody(body) + rest) == Some((body, rest))
  {
    assert |Ascii("directory")| == 9 && |Ascii("file")| == 4 && |Ascii("symlink")| == 7;
    match body
    case DirectoryBody =>
      assert EncodeBody(body) + rest == rest;
    case FileBody(content) =>
      var length := Numeral(|content|, 10);
      assert EncodeBody(body) + rest == Field(length) + (content + rest);
      FieldReadsBack(length, content + rest);
      NumeralReadsBack(|content|, 10);
      assert (content + rest)[..|content|] == content && (content + rest)[|content|..] == rest;
    case SymlinkBody(target) =>
      FieldReadsBack(target, rest);
  }

  lemma EntryReadsBack(e: Entry, rest: Bytes)
    ensures ReadEntry(EncodeEntry(e) + rest) == Some((e, rest))
  {
    hide Field, Numeral, ReadNumeral, ReadField, TypeName, EncodeBody, ReadBody;
    var body := EncodeBody(e.body) + rest;
    var mode := Numeral(e.executableMode, 8);
    var afterKind := Field(mode) + body;
    var afterPath := Field(TypeName(e.body)) + afterKind;
    assert EncodeEntry(e) + rest == Field(e.path) + afterPath;
    FieldReadsBack(e.path, afterPath);
    FieldReadsBack(TypeName(e.body), afterKind);
    FieldReadsBack(mode, body);
    NumeralReadsBack(e.executableMode, 8);
    BodyReadsBack(e.body, rest);
  }

  /** The decoder inverts the encoder on every listing. */
  lemma {:induction false} DecodeInvertsEncode(entries: seq<Entry>)
    ensures Decode(Encode(entries)) == Some(entries)
  {
    hide ReadEntry, EncodeEntry;
    if entries != [] {
      var rest := Encode(entries[1..]);
      EntryReadsBack(entries[0], rest);
      assert Encode(entries) != [];
      DecodeInvertsEncode(entries[1..]);
      assert entries == [entries[0]] + entries[1..];
    }
  }

  /** Two listings that feed the same bytes to the hash are the same listing. */
  lemma StreamsAreUniquelyDecodable(a: seq<Entry>, b: seq<Entry>)
    requires Encode(a) == Encode(b)
    ensures a == b
  {
    DecodeInvertsEncode(a);
    DecodeInvertsEncode(b);
  }

  lemma AsciiJoins(a: string, b: string)
    ensures Ascii(a + b) == Ascii(a) + Ascii(b)
  {
  }

  lemma ShortField(s: string, digit: string)
    requires |s| < 10 && |digit| == 1 && digit[0] as int == '0' as int + |s|
    ensures Field(Ascii(s)) == Ascii(digit + ":" + s)
  {
    assert Numeral(|s|, 10) == Ascii(digit);
    AsciiJoins(digit, ":");
    AsciiJoins(digit + ":", s);
    assert Ascii(":") == [COLON];
  }

  /** An entry whose fields are all short, as text. */
  lemma ShortEntry(e: Entry, path: string, kind: string, mode: string, a: string, b: string, c: string)
    requires e.path == Ascii(path) && TypeName(e.body) == Ascii(kind) && Numeral(e.executableMode, 8) == Ascii(mode)
    requires |path| < 10 && |a| == 1 && a[0] as int == '0' as int + |path|
    requires |kind| < 10 && |b| == 1 && b[0] as int == '0' as int + |kind|
    requires |mode| < 10 && |c| == 1 && c[0] as int == '0' as int + |mode|
    ensures EncodeEntry(e) == Ascii((a + ":" + path) + ((b + ":" + kind) + (c + ":" + mode))) + EncodeBody(e.body)
  {
    ShortField(path, a);
    ShortField(kind, b);
    ShortField(mode, c);
    AsciiJoins(b + ":" + kind, c + ":" + mode);
    AsciiJoins(a + ":" + path, (b + ":" + kind) + (c + ":" + mode));
    hide Field, Numeral, Ascii, TypeName, EncodeBody;
  }

  lemma StreamOfADirectory()
    ensures EncodeEntry(Entry(Ascii("d"), 73, DirectoryBody)) == Ascii("1:d9:directory3:111")
  {
    assert Numeral(9, 8) == Ascii("11") && Numeral(73, 8) == Ascii("111");
    assert ("1" + ":" + "d") + (("9" + ":" + "directory") + ("3" + ":" + "111")) == "1:d9:directory3:111";
    hide Numeral, Ascii, EncodeEntry;
    ShortEntry(Entry(Ascii("d"), 73, DirectoryBody), "d", "directory", "111", "1", "9", "3");
  }

  lemma StreamOfAFile()
    ensures EncodeEntry(Entry(Ascii("d/a"), 8, FileBody(Ascii("hi")))) == Ascii("3:d/a4:file2:10") + Ascii("1:2hi")
  {
    assert Numeral(8, 8) == Ascii("10") && Numeral(2, 10) == Ascii("2");
    assert ("3" + ":" + "d/a") + (("4" + ":" + "file") + ("2" + ":" + "10")) == "3:d/a4:file2:10";
    ShortField("2", "1");
    AsciiJoins("1:2", "hi");
    assert "1" + ":" + "2" == "1:2" && "1:2" + "hi" == "1:2hi";
    hide Numeral, Ascii, EncodeEntry, Field;
    ShortEntry(Entry(Ascii("d/a"), 8, FileBody(Ascii("hi"))), "d/a", "file", "10", "3", "4", "2");
  }

  lemma StreamOfALink()
    ensures EncodeEntry(Entry(Ascii("l"), 0, SymlinkBody(Ascii("d")))) == Ascii("1:l7:symlink1:0") + Ascii("1:d")
  {
    assert Numeral(0, 8) == Ascii("0");
    assert ("1" + ":" + "l") + (("7" + ":" + "symlink") + ("1" + ":" + "0")) == "1:l7:symlink1:0";
    ShortField("d", "1");
    assert "1" + ":" + "d" == "1:d";
    hide Numeral, Ascii, EncodeEntry, Field;
    ShortEntry(Entry(Ascii("l"), 0, SymlinkBody(Ascii("d"))), "l", "symlink", "0", "1", "7", "1");
  }

  /** The bytes themselves, on a listing with an entry of each kind. */
  lemma StreamOfThree()
    ensures Encode([Entry(Ascii("d"), 73, DirectoryBody), Entry(Ascii("d/a"), 8, FileBody(Ascii("hi"))),
                    Entry(Ascii("l"), 0, SymlinkBody(Ascii("d")))])
         == Ascii("1:d9:directory3:111")
            + ((Ascii("3:d/a4:file2:10") + Ascii("1:2hi")) + (Ascii("1:l7:symlink1:0") + Ascii("1:d")))
  {
    StreamOfADirectory();
    StreamOfAFile();
    StreamOfALink();
    var d, a, l := Entry(Ascii("d"), 73, DirectoryBody), Entry(Ascii("d/a"), 8, FileBody(Ascii("hi"))),
                   Entry(Ascii("l"), 0, SymlinkBody(Ascii("d")));
    hide EncodeEntry, Ascii;
    EncodeOne(l);
    assert [d, a, l][1..] == [a, l] && [a, l][1..] == [l];
  }

  lemma EncodeOne(e: Entry)
    ensures Encode([e]) == EncodeEntry(e)
  {
    assert [e][1..] == [];
  }
}
