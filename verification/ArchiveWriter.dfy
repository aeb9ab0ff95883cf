/** The archives that the bundle builder writes (scripts/collect-native-notices.py:656-690), and their acceptance. */
module ArchiveWriter {
  import opened Faults
  import opened Archive

  function Power(n: nat): nat { if n == 0 then 1 else 8 * Power(n - 1) }

  function DigitOf(d: nat): (c: char)
    requires d < 8
    ensures OctalDigit(c) && DigitValue(c) == d
  {
    ('0' as nat + d) as char
  }

  /** A number in octal, with leading zeros. */
  function Digits(n: nat, width: nat): (s: Bytes)
    ensures |s| == width && AllOctal(s)
  {
    if width == 0 then "" else Digits(n / 8, width - 1) + [DigitOf(n % 8)]
  }

  lemma LastDigit(s: Bytes, c: char)
    requires AllOctal(s) && OctalDigit(c)
    ensures OctalValue(s + [c]) == 8 * OctalValue(s) + DigitValue(c)
  {
    assert (s + [c])[..|s|] == s;
  }

  lemma {:induction false} DigitsReturn(n: nat, width: nat)
    requires n < Power(width)
    ensures OctalValue(Digits(n, width)) == n
  {
    if width > 0 {
      DigitsReturn(n / 8, width - 1);
      LastDigit(Digits(n / 8, width - 1), DigitOf(n % 8));
    }
  }

  lemma StripDigits(s: Bytes, end: Bytes)
    requires s != "" && AllOctal(s) && (end == "\0" || end == "\0 ")
    ensures StripStart(StripEnd(s + end)) == s
  {
    var one := s + "\0";
    assert one[..|one| - 1] == s;
    assert StripEnd(s) == s && StripStart(s) == s;
    assert StripEnd(one) == s;
    var two := s + "\0 ";
    assert two[..|two| - 1] == one;
  }

  lemma OctalReturns(n: nat, width: nat, end: Bytes)
    requires width > 0 && n < Power(width) && (end == "\0" || end == "\0 ")
    ensures Octal(Digits(n, width) + end) == Some(n)
  {
    StripDigits(Digits(n, width), end);
    DigitsReturn(n, width);
  }

  // ---------------------------------------------------------------- headers

  /** The header up to the checksum: name, mode, owner, group, size and time. */
  function Front(name: string, size: nat): (s: Bytes)
    requires |name| <= 100
    ensures |s| == 148
  {
    name + Zeros(100 - |name|) + (Digits(ModeOf(name), 7) + "\0") + (Digits(0, 7) + "\0") + (Digits(0, 7) + "\0")
    + (Digits(size, 11) + "\0") + (Digits(0, 11) + "\0")
  }

  /** The header after the checksum: type, link, magic, names, device numbers and prefix. */
  function Back(device: Bytes): (s: Bytes)
    requires |device| == 16
    ensures |s| == 356
  {
    "0" + Zeros(100) + MAGIC + Zeros(64) + device + Zeros(167)
  }

  function Total(name: string, size: nat, device: Bytes): nat
    requires |name| <= 100 && |device| == 16
  {
    Sum(Front(name, size) + "        " + Back(device))
  }

  function Header(name: string, size: nat, device: Bytes): (s: Bytes)
    requires |name| <= 100 && |device| == 16
    ensures |s| == BLOCK
  {
    Front(name, size) + (Digits(Total(name, size, device), 6) + "\0 ") + Back(device)
  }

  predicate Plain(name: string) {
    |name| <= 100 && forall i :: 0 <= i < |name| ==> '\0' < name[i] < '\U{80}'
  }

  lemma {:induction false} NameReturns(name: string, padding: nat)
    requires forall i :: 0 <= i < |name| ==> '\0' < name[i]
    ensures UpToNul(name + Zeros(padding)) == name
  {
    if name == "" {
      assert name + Zeros(padding) == Zeros(padding);
    } else {
      assert (name + Zeros(padding))[1..] == name[1..] + Zeros(padding);
      NameReturns(name[1..], padding);
      assert [name[0]] + name[1..] == name;
    }
  }

  predicate Narrow(s: Bytes) {
    forall i :: 0 <= i < |s| ==> s[i] < '\U{100}'
  }

  lemma {:induction false} SumBound(s: Bytes)
    requires Narrow(s)
    ensures Sum(s) <= 255 * |s|
  {
    if s != "" {
      SumBound(s[1..]);
    }
  }

  lemma Widths()
    ensures Power(6) == 262144 && Power(7) == 2097152 && Power(11) == 8589934592
  {
    assert Power(4) == 4096;
    assert Power(6) == 64 * Power(4) by { assert Power(6) == 8 * Power(5); }
    assert Power(7) == 8 * Power(6);
    assert Power(9) == 64 * Power(7) by { assert Power(9) == 8 * Power(8); }
    assert Power(11) == 64 * Power(9) by { assert Power(11) == 8 * Power(10); }
  }

  lemma FrontSlices(f: Bytes, name: Bytes, mode: Bytes, owner: Bytes, group: Bytes, size: Bytes, time: Bytes)
    requires |name| == 100 && |mode| == 8 && |owner| == 8 && |group| == 8 && |size| == 12 && |time| == 12
    requires f == name + mode + owner + group + size + time
    ensures f[..100] == name && f[100..108] == mode && f[108..116] == owner && f[116..124] == group && f[124..136] == size
  {
  }

  lemma FrontFields(name: string, size: nat)
    requires Plain(name) && size < 8589934592
    ensures GoodNumbers(Front(name, size), name, size)
    ensures Front(name, size)[..100] == name + Zeros(100 - |name|)
  {
    Widths();
    OctalReturns(ModeOf(name), 7, "\0");
    OctalReturns(0, 7, "\0");
    OctalReturns(size, 11, "\0");
    FrontSlices(Front(name, size), name + Zeros(100 - |name|), Digits(ModeOf(name), 7) + "\0", Digits(0, 7) + "\0",
                Digits(0, 7) + "\0", Digits(size, 11) + "\0", Digits(0, 11) + "\0");
  }

  lemma BackFields(device: Bytes)
    requires |device| == 16
    ensures GoodBack(Back(device))
  {
    var b := Back(device);
    assert b[101..109] == MAGIC;
    assert b[189..344] == Zeros(167)[..155];
  }

  lemma TotalFits(name: string, size: nat, device: Bytes)
    requires Plain(name) && |device| == 16 && Narrow(device)
    ensures Total(name, size, device) < 262144
  {
    FrontIsNarrow(name, size);
    BackIsNarrow(device);
    var start := Front(name, size) + "        ";
    NarrowConcat(Front(name, size), "        ");
    NarrowConcat(start, Back(device));
    SumBound(start + Back(device));
  }

  lemma NarrowConcat(a: Bytes, b: Bytes)
    requires Narrow(a) && Narrow(b)
    ensures Narrow(a + b)
  {
  }

  lemma BackIsNarrow(device: Bytes)
    requires |device| == 16 && Narrow(device)
    ensures Narrow(Back(device))
  {
    assert Narrow(MAGIC);
  }

  lemma FrontIsNarrow(name: string, size: nat)
    requires Plain(name)
    ensures Narrow(Front(name, size))
  {
    NarrowDigits(ModeOf(name), 7);
    NarrowDigits(0, 7);
    NarrowDigits(size, 11);
    NarrowDigits(0, 11);
  }

  lemma NarrowDigits(n: nat, width: nat)
    ensures Narrow(Digits(n, width) + "\0")
  {
  }

  /** A written header passes every check. */
  lemma HeaderIsGood(name: string, size: nat, device: Bytes)
    requires Plain(name) && size < 8589934592 && |device| == 16 && Narrow(device)
    ensures GoodHeader(Header(name, size, device), name, size)
  {
    FrontIsGood(name, size);
    BackFields(device);
    ChecksumReturns(name, size, device);
    GoodFromParts(Front(name, size), Digits(Total(name, size, device), 6) + "\0 ", Back(device), name, size);
  }

  lemma {:induction false} SumConcat(a: Bytes, b: Bytes)
    ensures Sum(a + b) == Sum(a) + Sum(b)
  {
    if a == "" {
      assert a + b == b;
    } else {
      assert (a + b)[0] == a[0] && (a + b)[1..] == a[1..] + b;
      SumConcat(a[1..], b);
    }
  }

  lemma {:induction false} SpacesSum(n: nat, s: Bytes)
    requires |s| == n && forall c :: c in s ==> c == ' '
    ensures Sum(s) == 32 * n
  {
    if n > 0 {
      assert s[0] in s && forall c :: c in s[1..] ==> c in s;
      SpacesSum(n - 1, s[1..]);
    }
  }

  lemma {:induction false} UpToNulStops(s: Bytes)
    ensures var p := UpToNul(s);
            |p| <= |s| && s[..|p|] == p && '\0' !in p && (|p| < |s| ==> s[|p|] == '\0')
  {
    if s != "" && s[0] != '\0' {
      UpToNulStops(s[1..]);
      assert UpToNul(s) == [s[0]] + UpToNul(s[1..]);
    }
  }

  lemma ChecksumIsSum(header: Bytes)
    requires |header| == BLOCK
    ensures Checksum(header) == Sum(header[..148]) + 8 * 32 + Sum(header[156..])
  {
    SumConcat(header[..148] + "        ", header[156..]);
    SumConcat(header[..148], "        ");
    SpacesSum(8, "        ");
  }

  lemma NameIsChecked(header: Bytes, name: string)
    requires |header| == BLOCK && NameOf(header) == Some(name)
    ensures |name| <= 100 && header[..|name|] == name && '\0' !in name && (|name| < 100 ==> header[|name|] == '\0')
  {
    UpToNulStops(header[..100]);
    assert header[..100][..|name|] == header[..|name|];
  }

  /** What a header that passes looks like, field by field. */
  lemma HeaderIsChecked(header: Bytes, name: string, size: nat)
    requires GoodHeader(header, name, size)
    ensures header[257..263] == "ustar\0" && header[263] == '0' && header[264] == '0'
    ensures header[156] == '0' || header[156] == '\0'
    ensures forall i :: 345 <= i < 500 ==> header[i] == '\0'
    ensures |name| <= 100 && header[..|name|] == name && '\0' !in name && (|name| < 100 ==> header[|name|] == '\0')
    ensures forall sum: nat :: sum < Power(6) && header[148..156] == Digits(sum, 6) + "\0 " ==>
      sum == Sum(header[..148]) + 8 * 32 + Sum(header[156..])
  {
    MagicIsChecked(header);
    NameIsChecked(header, name);
    ChecksumIsSum(header);
    forall sum: nat | sum < Power(6) && header[148..156] == Digits(sum, 6) + "\0 "
      ensures sum == Checksum(header)
    {
      OctalReturns(sum, 6, "\0 ");
    }
  }

  lemma MagicIsChecked(header: Bytes)
    requires |header| == BLOCK && header[257..265] == MAGIC && AllZero(header[345..500])
    ensures header[257..263] == "ustar\0" && header[263] == '0' && header[264] == '0'
    ensures forall i :: 345 <= i < 500 ==> header[i] == '\0'
  {
    assert header[257..263] == header[257..265][..6] && header[263] == header[257..265][6] && header[264] == header[257..265][7];
    assert forall i :: 345 <= i < 500 ==> header[i] == header[345..500][i - 345];
  }

  /** The numbers a header was written with. */
  predicate NumbersWritten(header: Bytes, mode: nat, owner: nat, group: nat, size: nat) {
    && |header| == BLOCK && mode < Power(7) && owner < Power(7) && group < Power(7) && size < Power(11)
    && header[100..108] == Digits(mode, 7) + "\0" && header[108..116] == Digits(owner, 7) + "\0"
    && header[116..124] == Digits(group, 7) + "\0" && header[124..136] == Digits(size, 11) + "\0"
  }

  /** No header passes with another mode, owner, group or size: 755 for the program, 644 for every other file. */
  lemma NumbersAreChecked(header: Bytes, name: string, length: nat, mode: nat, owner: nat, group: nat, size: nat)
    requires NumbersWritten(header, mode, owner, group, size) && GoodHeader(header, name, length)
    ensures mode == if name == "idk-linux-x86_64" then 7 * 64 + 5 * 8 + 5 else 6 * 64 + 4 * 8 + 4
    ensures owner == 0 && group == 0 && size == length
  {
    OctalReturns(mode, 7, "\0");
    OctalReturns(owner, 7, "\0");
    OctalReturns(group, 7, "\0");
    OctalReturns(size, 11, "\0");
  }

  predicate GoodNumbers(f: Bytes, name: string, size: nat) {
    && |f| == 148 && Octal(f[124..136]) == Some(size)
    && Octal(f[100..108]) == Some(ModeOf(name)) && Octal(f[108..116]) == Some(0) && Octal(f[116..124]) == Some(0)
  }

  predicate GoodFront(f: Bytes, name: string, size: nat) {
    GoodNumbers(f, name, size) && UpToNul(f[..100]) == name
  }

  predicate GoodBack(b: Bytes) {
    |b| == 356 && b[0] == '0' && b[101..109] == MAGIC && AllZero(b[189..344])
  }

  lemma FrontIsGood(name: string, size: nat)
    requires Plain(name) && size < 8589934592
    ensures GoodFront(Front(name, size), name, size)
  {
    FrontFields(name, size);
    NamedFront(Front(name, size), name, size);
  }

  lemma NamedFront(f: Bytes, name: string, size: nat)
    requires GoodNumbers(f, name, size) && Plain(name) && f[..100] == name + Zeros(100 - |name|)
    ensures GoodFront(f, name, size)
  {
    NameReturns(name, 100 - |name|);
  }

  /** A header put together from good parts. */
  lemma GoodFromParts(f: Bytes, c: Bytes, b: Bytes, name: string, size: nat)
    requires GoodFront(f, name, size) && GoodBack(b) && Plain(name)
    requires |c| == 8 && Octal(c) == Some(Sum(f + "        " + b))
    ensures GoodHeader(f + c + b, name, size)
  {
    var h := f + c + b;
    HeaderSlices(h, f, c, b);
    assert NameOf(h) == Some(name);
    assert Checksum(h) == Sum(f + "        " + b);
  }

  lemma ChecksumReturns(name: string, size: nat, device: Bytes)
    requires Plain(name) && |device| == 16 && Narrow(device)
    ensures Octal(Digits(Total(name, size, device), 6) + "\0 ") == Some(Sum(Front(name, size) + "        " + Back(device)))
  {
    TotalFits(name, size, device);
    Widths();
    OctalReturns(Total(name, size, device), 6, "\0 ");
  }

  lemma HeaderSlices(h: Bytes, f: Bytes, c: Bytes, b: Bytes)
    requires |f| == 148 && |c| == 8 && |b| == 356 && h == f + c + b
    ensures h[..148] == f && h[148..156] == c && h[156..] == b
    ensures h[..100] == f[..100] && h[100..108] == f[100..108] && h[108..116] == f[108..116]
    ensures h[116..124] == f[116..124] && h[124..136] == f[124..136]
    ensures h[156] == b[0] && h[257..265] == b[101..109] && h[345..500] == b[189..344]
  {
  }

  // ---------------------------------------------------------------- the image

  /** How the headers are written. */
  type Writer = (string, nat) -> Bytes

  /** The headers of `tarfile`, for given device fields. */
  function HeaderWriter(device: Bytes): Writer
    requires |device| == 16
  {
    (name: string, size: nat) => if |name| <= 100 then Header(name, size, device) else ""
  }

  ghost predicate WritesGoodHeaders(write: Writer) {
    forall name: string, size: nat :: Plain(name) && size <= MAX_UNPACKED ==> GoodHeader(write(name, size), name, size)
  }

  lemma HeadersAreGood(device: Bytes)
    requires |device| == 16 && Narrow(device)
    ensures WritesGoodHeaders(HeaderWriter(device))
  {
    forall name: string, size: nat | Plain(name) && size <= MAX_UNPACKED
      ensures GoodHeader(HeaderWriter(device)(name, size), name, size)
    {
      WriterWrites(name, size, device);
    }
  }

  lemma WriterWrites(name: string, size: nat, device: Bytes)
    requires |device| == 16 && Narrow(device) && Plain(name) && size <= MAX_UNPACKED
    ensures GoodHeader(HeaderWriter(device)(name, size), name, size)
  {
    HeaderIsGood(name, size, device);
    assert HeaderWriter(device)(name, size) == Header(name, size, device);
  }

  function WrittenMembers(names: seq<string>, files: map<string, Bytes>, write: Writer): (ms: seq<Member>)
    requires PlainNames(names, files)
  {
    if names == [] then []
    else [Member(names[0], write(names[0], |files[names[0]]|))] + WrittenMembers(names[1..], files, write)
  }

  predicate PlainNames(names: seq<string>, files: map<string, Bytes>) {
    names == [] || (names[0] in files && Plain(names[0]) && PlainNames(names[1..], files))
  }

  /** Headers and padded contents, as the builder adds them up. */
  function Contents(names: seq<string>, files: map<string, Bytes>): nat
    requires PlainNames(names, files)
  {
    if names == [] then 0
    else 512 + (|files[names[0]]| + 511) / 512 * 512 + Contents(names[1..], files)
  }

  /** The size that `build_bundle` computes: two zero blocks, rounded up to a whole record. */
  function BuildSize(files: map<string, Bytes>): nat
    requires Candidate(files)
  {
    NamesArePlain(files);
    (Contents(FILES, files) + 1024 + RECORD - 1) / RECORD * RECORD
  }

  lemma EncodedLength(m: Member, files: map<string, Bytes>)
    requires m.name in files && |m.header| == BLOCK
    ensures |Encoded(m, files)| == 512 + (|files[m.name]| + 511) / 512 * 512
  {
  }

  lemma SizeWithin(names: seq<string>, files: map<string, Bytes>)
    requires PlainNames(names, files) && names != []
    ensures |files[names[0]]| <= Contents(names, files) && Contents(names[1..], files) <= Contents(names, files)
  {
  }

  lemma OneIsGood(name: string, files: map<string, Bytes>, write: Writer)
    requires WritesGoodHeaders(write) && name in files && Plain(name) && |files[name]| <= MAX_UNPACKED
    ensures GoodMember(Member(name, write(name, |files[name]|)), files)
  {
  }

  lemma {:induction false} WrittenAreGood(names: seq<string>, files: map<string, Bytes>, write: Writer)
    requires PlainNames(names, files) && WritesGoodHeaders(write) && Contents(names, files) <= MAX_UNPACKED
    ensures Members(WrittenMembers(names, files, write), files)
    ensures Known(WrittenMembers(names, files, write), files)
  {
    if names != [] {
      SizeWithin(names, files);
      WrittenAreGood(names[1..], files, write);
      OneIsGood(names[0], files, write);
      var ms := WrittenMembers(names, files, write);
      assert ms[0] == Member(names[0], write(names[0], |files[names[0]]|));
      assert ms[1..] == WrittenMembers(names[1..], files, write);
    }
  }

  lemma {:induction false} WrittenNames(names: seq<string>, files: map<string, Bytes>, write: Writer)
    requires PlainNames(names, files)
    ensures NamesOf(WrittenMembers(names, files, write)) == names
  {
    if names != [] {
      WrittenNames(names[1..], files, write);
      var ms := WrittenMembers(names, files, write);
      assert ms[1..] == WrittenMembers(names[1..], files, write);
    }
  }

  predicate WholeHeaders(ms: seq<Member>) {
    ms == [] || (|ms[0].header| == BLOCK && WholeHeaders(ms[1..]))
  }

  lemma {:induction false} GoodHeadersAreWhole(ms: seq<Member>, files: map<string, Bytes>)
    requires Members(ms, files)
    ensures WholeHeaders(ms)
  {
    if ms != [] {
      GoodHeadersAreWhole(ms[1..], files);
    }
  }

  lemma ImageCons(ms: seq<Member>, files: map<string, Bytes>)
    requires ms != [] && WholeHeaders(ms) && Known(ms, files)
    ensures |Image(ms, files)| == 512 + (|files[ms[0].name]| + 511) / 512 * 512 + |Image(ms[1..], files)|
  {
    EncodedLength(ms[0], files);
  }

  lemma {:induction false} MembersLength(ms: seq<Member>, files: map<string, Bytes>)
    requires WholeHeaders(ms) && Known(ms, files) && PlainNames(NamesOf(ms), files)
    ensures |Image(ms, files)| == Contents(NamesOf(ms), files)
    ensures Contents(NamesOf(ms), files) % 512 == 0
  {
    if ms != [] {
      assert NamesOf(ms)[1..] == NamesOf(ms[1..]);
      MembersLength(ms[1..], files);
      ImageCons(ms, files);
    }
  }

  /** The names of members, in order. */
  function NamesOf(ms: seq<Member>): (names: seq<string>)
    ensures |names| == |ms|
  {
    if ms == [] then [] else [ms[0].name] + NamesOf(ms[1..])
  }

  lemma {:induction false} NamesOfAt(ms: seq<Member>, i: nat)
    requires i < |ms|
    ensures NamesOf(ms)[i] == ms[i].name
  {
    if i > 0 {
      NamesOfAt(ms[1..], i - 1);
    }
  }

  lemma NamesArePlain(files: map<string, Bytes>)
    requires Candidate(files)
    ensures PlainNames(FILES, files)
  {
    forall i | 0 <= i < |FILES|
      ensures Plain(FILES[i]) && FILES[i] in files
    {
      FileNameIsPlain(i);
      assert FILES[i] in FILES;
    }
    PlainFrom(FILES, files);
  }

  lemma FileNameIsPlain(i: nat)
    requires i < |FILES|
    ensures Plain(FILES[i])
  {
    NoticesPlain();
    BinaryPlain();
    ManifestPlain();
    ChecksumsPlain();
    InventoryPlain();
  }

  lemma NoticesPlain()
    ensures Plain(NOTICES)
  {
  }

  lemma BinaryPlain()
    ensures Plain(BINARY)
  {
  }

  lemma ManifestPlain()
    ensures Plain(MANIFEST)
  {
  }

  lemma ChecksumsPlain()
    ensures Plain(CHECKSUMS)
  {
  }

  lemma InventoryPlain()
    ensures Plain(INVENTORY)
  {
  }

  lemma {:induction false} PlainFrom(names: seq<string>, files: map<string, Bytes>)
    requires forall i :: 0 <= i < |names| ==> names[i] in files && Plain(names[i])
    ensures PlainNames(names, files)
  {
    if names != [] {
      PlainFrom(names[1..], files);
    }
  }

  lemma NamesDiffer()
    ensures forall i, j :: 0 <= i < j < |FILES| ==> FILES[i] != FILES[j]
  {
    assert |FILES[0]| == 27 && |FILES[1]| == 16 && |FILES[2]| == 30 && |FILES[3]| == 21 && |FILES[4]| == 29;
  }

  lemma RoundedUp(n: nat)
    ensures (n + RECORD - 1) / RECORD * RECORD >= n && (n + RECORD - 1) / RECORD * RECORD % 512 == 0
  {
    var k := (n + RECORD - 1) / RECORD;
    assert k * RECORD == k * 20 * 512;
  }

  /** Members with distinct names, each once. */
  lemma NamesCover(members: seq<Member>, names: seq<string>, all: set<string>)
    requires NamesOf(members) == names && forall i, j :: 0 <= i < j < |names| ==> names[i] != names[j]
    requires forall n :: n in all <==> n in names
    ensures Covers(members, {}, all)
  {
    forall i | 0 <= i < |members|
      ensures members[i].name == names[i]
    {
      NamesOfAt(members, i);
    }
    forall name
      ensures name in Names(members) <==> name in all
    {
      if name in all {
        var i :| 0 <= i < |names| && names[i] == name;
        assert members[i] in members && members[i].name == name;
      }
      if name in Names(members) {
        var m :| m in members && m.name == name;
        var i :| 0 <= i < |members| && members[i] == m;
        assert names[i] == name;
      }
    }
    assert {} + Names(members) == all;
  }

  /**
   Every archive that the builder writes within the size bound, the five members and zeros up to the size that
   the builder computes, is accepted, whatever the unused device fields hold.
   */
  lemma WrittenIsAccepted(files: map<string, Bytes>, device: Bytes)
    requires Candidate(files) && |device| == 16 && Narrow(device) && BuildSize(files) <= MAX_UNPACKED
    ensures PlainNames(FILES, files)
    ensures var ms := WrittenMembers(FILES, files, HeaderWriter(device));
      && Known(ms, files) && |Image(ms, files)| <= BuildSize(files)
      && IsBundleImage(Image(ms, files) + Zeros(BuildSize(files) - |Image(ms, files)|), files)
  {
    NamesArePlain(files);
    NamesDiffer();
    HeadersAreGood(device);
    NamedIsAccepted(FILES, files, HeaderWriter(device), BuildSize(files));
  }

  lemma NamedIsAccepted(names: seq<string>, files: map<string, Bytes>, write: Writer, size: nat)
    requires Candidate(files) && PlainNames(names, files) && WritesGoodHeaders(write)
    requires forall i, j :: 0 <= i < j < |names| ==> names[i] != names[j]
    requires forall n :: n in AllNames() <==> n in names
    requires size == (Contents(names, files) + 1024 + RECORD - 1) / RECORD * RECORD <= MAX_UNPACKED
    ensures var ms := WrittenMembers(names, files, write);
      && Known(ms, files) && |Image(ms, files)| <= size
      && IsBundleImage(Image(ms, files) + Zeros(size - |Image(ms, files)|), files)
  {
    SizeCovers(names, files);
    WrittenAreGood(names, files, write);
    WrittenNames(names, files, write);
    var ms := WrittenMembers(names, files, write);
    GoodHeadersAreWhole(ms, files);
    MembersLength(ms, files);
    NamesCover(ms, names, AllNames());
    FilledIsAccepted(ms, Contents(names, files), size, files);
  }

  lemma SizeCovers(names: seq<string>, files: map<string, Bytes>)
    requires PlainNames(names, files)
    ensures var size := (Contents(names, files) + 1024 + RECORD - 1) / RECORD * RECORD;
      size >= Contents(names, files) + 1024 && size % 512 == 0
  {
    RoundedUp(Contents(names, files) + 1024);
  }

  lemma FilledIsAccepted(ms: seq<Member>, contents: nat, size: nat, files: map<string, Bytes>)
    requires Candidate(files) && Members(ms, files) && Known(ms, files) && Covers(ms, {}, AllNames())
    requires |Image(ms, files)| == contents && contents + 1024 <= size <= MAX_UNPACKED && size % 512 == 0
    ensures |Image(ms, files)| <= size
    ensures IsBundleImage(Image(ms, files) + Zeros(size - |Image(ms, files)|), files)
  {
    var tail := size - contents;
    TailIsLayout(ms, tail, files);
    FilledImage(Image(ms, files), tail, size, ms, files);
  }

  lemma FilledImage(image: Bytes, tail: nat, size: nat, ms: seq<Member>, files: map<string, Bytes>)
    requires Candidate(files) && Layout(image + Zeros(tail), ms, tail, {}, files)
    requires |image| + tail == size <= MAX_UNPACKED && size % 512 == 0
    ensures IsBundleImage(image + Zeros(tail), files)
  {
    Filled(image, tail, size);
    LayoutIsImage(image + Zeros(tail), ms, tail, files);
  }

  lemma Filled(image: Bytes, tail: nat, size: nat)
    requires |image| + tail == size
    ensures |image + Zeros(tail)| == size
  {
  }

  lemma TailIsLayout(ms: seq<Member>, tail: nat, files: map<string, Bytes>)
    requires Candidate(files) && Members(ms, files) && Known(ms, files) && Covers(ms, {}, AllNames()) && tail >= 1024
    ensures Layout(Image(ms, files) + Zeros(tail), ms, tail, {}, files)
  {
  }

  lemma LayoutIsImage(data: Bytes, ms: seq<Member>, tail: nat, files: map<string, Bytes>)
    requires Candidate(files) && Layout(data, ms, tail, {}, files)
    requires |data| <= MAX_UNPACKED && |data| % 512 == 0
    ensures IsBundleImage(data, files)
  {
  }
}
