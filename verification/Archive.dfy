/**
 Verification of the release bundle (scripts/release-native.py:181-237) against flat archives in the ustar
 interchange format (IEEE Std 1003.1, pax utility). A byte is the character with its number.
 */
module Archive {
  import opened Faults

  type Bytes = string

  const BINARY := "idk-linux-x86_64"
  const MANIFEST := "idk-linux-x86_64.manifest.json"
  const INVENTORY := "idk-third-party-licenses.json"
  const NOTICES := "idk-THIRD-PARTY-NOTICES.txt"
  const CHECKSUMS := "idk-native-SHA256SUMS"
  /** Sorted by name. */
  const FILES: seq<string> := [NOTICES, BINARY, MANIFEST, CHECKSUMS, INVENTORY]
  const MAX_COMPRESSED := 64 * 1024 * 1024
  const MAX_UNPACKED := 128 * 1024 * 1024
  const BLOCK := 512
  const RECORD := 10240
  const MAGIC := "ustar\0" + "00"

  predicate AllZero(s: Bytes) {
    forall i :: 0 <= i < |s| ==> s[i] == '\0'
  }

  function Zeros(n: nat): (s: Bytes)
    ensures |s| == n && AllZero(s)
  {
    seq(n, i => '\0')
  }

  /** Padding to a whole number of blocks. */
  function Padding(n: nat): nat { (n + 511) / 512 * 512 - n }

  // ---------------------------------------------------------------- numbers and names

  predicate OctalDigit(c: char) { '0' <= c <= '7' }

  function StripEnd(s: Bytes): Bytes {
    if s != "" && (s[|s| - 1] == '\0' || s[|s| - 1] == ' ') then StripEnd(s[..|s| - 1]) else s
  }

  function StripStart(s: Bytes): Bytes {
    if s != "" && s[0] == ' ' then StripStart(s[1..]) else s
  }

  function DigitValue(c: char): nat
    requires OctalDigit(c)
  {
    c as nat - '0' as nat
  }

  predicate AllOctal(s: Bytes) {
    forall i :: 0 <= i < |s| ==> OctalDigit(s[i])
  }

  function OctalValue(s: Bytes): nat
    requires AllOctal(s)
  {
    if s == "" then 0 else 8 * OctalValue(s[..|s| - 1]) + DigitValue(s[|s| - 1])
  }

  /** `octal`. */
  function Octal(field: Bytes): Option<nat> {
    var digits := StripStart(StripEnd(field));
    if digits != "" && AllOctal(digits) then Some(OctalValue(digits)) else None
  }

  function UpToNul(s: Bytes): Bytes {
    if s == "" || s[0] == '\0' then "" else [s[0]] + UpToNul(s[1..])
  }

  /** The name field; bytes that are not ASCII make no name. */
  function NameOf(header: Bytes): Option<string>
    requires |header| == BLOCK
  {
    var name := UpToNul(header[..100]);
    if forall c :: c in name ==> c < '\U{80}' then Some(name) else None
  }

  function Sum(s: Bytes): nat {
    if s == "" then 0 else s[0] as nat + Sum(s[1..])
  }

  /** The byte sum, the checksum field counted as spaces. */
  function Checksum(header: Bytes): nat
    requires |header| == BLOCK
  {
    Sum(header[..148] + "        " + header[156..])
  }

  function ModeOf(name: string): nat { if name == BINARY then 0x1ed else 0x1a4 }

  /** What the verifier asks of the header of a member. */
  predicate GoodHeader(header: Bytes, name: string, size: nat) {
    && |header| == BLOCK
    && header[257..265] == MAGIC && AllZero(header[345..500]) && (header[156] == '0' || header[156] == '\0')
    && NameOf(header) == Some(name)
    && Octal(header[148..156]) == Some(Checksum(header))
    && Octal(header[100..108]) == Some(ModeOf(name)) && Octal(header[108..116]) == Some(0) && Octal(header[116..124]) == Some(0)
    && Octal(header[124..136]) == Some(size)
  }

  predicate Candidate(files: map<string, Bytes>) {
    forall name :: name in FILES ==> name in files
  }

  // ---------------------------------------------------------------- the verifier

  /** The member at `offset`: header, exact contents, zero padding, all within the archive. */
  predicate MemberAt(data: Bytes, offset: nat, name: string, files: map<string, Bytes>)
    requires Candidate(files) && offset + BLOCK <= |data|
  {
    && name in FILES
    && GoodHeader(data[offset..offset + BLOCK], name, |files[name]|)
    && offset + BLOCK + |files[name]| + Padding(|files[name]|) <= |data|
    && data[offset + BLOCK..offset + BLOCK + |files[name]|] == files[name]
    && AllZero(data[offset + BLOCK + |files[name]|..offset + BLOCK + |files[name]| + Padding(|files[name]|)])
  }

  function After(offset: nat, name: string, files: map<string, Bytes>): nat
    requires name in files
  {
    offset + BLOCK + |files[name]| + Padding(|files[name]|)
  }

  predicate HeaderFollows(data: Bytes, offset: nat) {
    offset + BLOCK <= |data| && !AllZero(data[offset..offset + BLOCK])
  }

  /** The loop of `verify_archive`, from a member boundary on. */
  predicate Scan(data: Bytes, offset: nat, observed: set<string>, files: map<string, Bytes>)
    requires Candidate(files) && offset <= |data|
    decreases |data| - offset
  {
    if HeaderFollows(data, offset) then
      var name := NameOf(data[offset..offset + BLOCK]);
      && name.Some? && name.value in FILES && name.value !in observed
      && MemberAt(data, offset, name.value, files)
      && Scan(data, After(offset, name.value, files), observed + {name.value}, files)
    else
      observed == AllNames() && |data| - offset >= 1024 && AllZero(data[offset..])
  }

  function AllNames(): set<string> { set name | name in FILES }

  predicate Step(data: Bytes, offset: nat, observed: set<string>, files: map<string, Bytes>, name: string)
    requires Candidate(files) && offset + BLOCK <= |data|
  {
    NameOf(data[offset..offset + BLOCK]) == Some(name) && name in FILES && name !in observed && MemberAt(data, offset, name, files)
  }

  /** The checks on a header alone, in the order of the program. */
  method CheckHeader(header: Bytes, observed: set<string>, files: map<string, Bytes>) returns (name: Option<string>)
    requires Candidate(files) && |header| == BLOCK
    ensures name.Some? ==> name.value in FILES && name.value !in observed && GoodHeader(header, name.value, |files[name.value]|)
    ensures name.None? ==> forall n :: n in FILES && n !in observed ==> !GoodHeader(header, n, |files[n]|)
  {
    if !(header[257..265] == MAGIC && AllZero(header[345..500]) && (header[156] == '0' || header[156] == '\0')) {
      return None;
    }
    var found := NameOf(header);
    if found.None? || found.value !in FILES || found.value in observed {
      return None;
    }
    var n := found.value;
    if Octal(header[148..156]) != Some(Checksum(header)) {
      return None;
    }
    if Octal(header[100..108]) != Some(ModeOf(n)) || Octal(header[108..116]) != Some(0) || Octal(header[116..124]) != Some(0) {
      return None;
    }
    if Octal(header[124..136]) != Some(|files[n]|) {
      return None;
    }
    name := found;
  }

  /** One turn of the loop: the next boundary, or nothing when the member is refused. */
  method CheckMember(data: Bytes, offset: nat, observed: set<string>, files: map<string, Bytes>) returns (name: Option<string>)
    requires Candidate(files) && offset + BLOCK <= |data|
    ensures name.Some? ==> Step(data, offset, observed, files, name.value)
    ensures name.None? ==> forall n :: !Step(data, offset, observed, files, n)
  {
    name := CheckHeader(data[offset..offset + BLOCK], observed, files);
    if name.Some? {
      var start := offset + BLOCK;
      var end := start + |files[name.value]|;
      var padded := start + (|files[name.value]| + 511) / 512 * 512;
      if padded > |data| || data[start..end] != files[name.value] || !AllZero(data[end..padded]) {
        name := None;
      }
    }
  }

  lemma ScanStep(data: Bytes, offset: nat, observed: set<string>, files: map<string, Bytes>, name: string)
    requires Candidate(files) && HeaderFollows(data, offset) && Step(data, offset, observed, files, name)
    ensures After(offset, name, files) <= |data|
    ensures Scan(data, offset, observed, files) == Scan(data, After(offset, name, files), observed + {name}, files)
  {
  }

  lemma ScanRefuses(data: Bytes, offset: nat, observed: set<string>, files: map<string, Bytes>)
    requires Candidate(files) && HeaderFollows(data, offset) && forall n :: !Step(data, offset, observed, files, n)
    ensures !Scan(data, offset, observed, files)
  {
    var name := NameOf(data[offset..offset + BLOCK]);
    if name.Some? {
      assert !Step(data, offset, observed, files, name.value);
    }
  }

  /** The loop. */
  method ScanMembers(data: Bytes, files: map<string, Bytes>) returns (ok: bool)
    requires Candidate(files)
    ensures ok == Scan(data, 0, {}, files)
  {
    var offset := 0;
    var observed: set<string> := {};
    while offset + BLOCK <= |data| && !AllZero(data[offset..offset + BLOCK])
      invariant offset <= |data|
      invariant Scan(data, offset, observed, files) == Scan(data, 0, {}, files)
      decreases |data| - offset
    {
      var name := CheckMember(data, offset, observed, files);
      if name.None? {
        ScanRefuses(data, offset, observed, files);
        return false;
      }
      ScanStep(data, offset, observed, files, name.value);
      offset, observed := After(offset, name.value, files), observed + {name.value};
    }
    ok := observed == AllNames() && |data| - offset >= 1024 && AllZero(data[offset..]);
  }

  /** `verify_archive` on the inflated bytes; `whole` says that they are the whole gzip stream and nothing follows it. */
  method VerifyArchive(compressed: nat, whole: bool, data: Bytes, files: map<string, Bytes>) returns (ok: bool)
    requires Candidate(files)
    ensures ok <==> compressed <= MAX_COMPRESSED && whole && IsBundleImage(data, files)
    ensures ok ==> compressed <= 67_108_864 && |data| <= 134_217_728
  {
    if compressed > MAX_COMPRESSED || |data| > MAX_UNPACKED || !whole || |data| % 512 != 0 {
      return false;
    }
    ScanIffImage(data, files);
    ok := ScanMembers(data, files);
  }

  // ---------------------------------------------------------------- bundle images

  datatype Member = Member(name: string, header: Bytes)

  function Encoded(m: Member, files: map<string, Bytes>): Bytes
    requires m.name in files
  {
    m.header + files[m.name] + Zeros(Padding(|files[m.name]|))
  }

  predicate Known(members: seq<Member>, files: map<string, Bytes>) {
    members == [] || (members[0].name in files && Known(members[1..], files))
  }

  predicate GoodMember(m: Member, files: map<string, Bytes>) {
    m.name in files && GoodHeader(m.header, m.name, |files[m.name]|)
  }

  predicate Members(members: seq<Member>, files: map<string, Bytes>) {
    members == [] || (GoodMember(members[0], files) && Members(members[1..], files))
  }

  function Image(members: seq<Member>, files: map<string, Bytes>): Bytes
    requires Known(members, files)
  {
    if members == [] then "" else Encoded(members[0], files) + Image(members[1..], files)
  }

  function Names(members: seq<Member>): set<string> { set m | m in members :: m.name }

  predicate DistinctNames(members: seq<Member>) {
    forall i, j :: 0 <= i < j < |members| ==> members[i].name != members[j].name
  }

  /** The members are named differently from each other and from the observed ones, and complete them. */
  predicate Covers(members: seq<Member>, observed: set<string>, all: set<string>) {
    DistinctNames(members) && (forall m :: m in members ==> m.name !in observed) && observed + Names(members) == all
  }

  lemma DistinctCons(first: Member, members: seq<Member>)
    ensures DistinctNames([first] + members) <==> DistinctNames(members) && forall m :: m in members ==> m.name != first.name
  {
    var whole := [first] + members;
    assert forall i :: 1 <= i < |whole| ==> whole[i] == members[i - 1];
    if DistinctNames(whole) {
      forall i, j | 0 <= i < j < |members|
        ensures members[i].name != members[j].name
      {
        assert members[i] == whole[i + 1] && members[j] == whole[j + 1];
      }
      forall m | m in members
        ensures m.name != first.name
      {
        var i :| 0 <= i < |members| && members[i] == m;
        assert whole[0] == first && whole[i + 1] == m;
      }
    }
  }

  lemma CoversCons(first: Member, members: seq<Member>, observed: set<string>, all: set<string>)
    ensures Covers([first] + members, observed, all) <==> first.name !in observed && Covers(members, observed + {first.name}, all)
  {
    var whole := [first] + members;
    DistinctCons(first, members);
    assert forall m :: m in whole <==> m == first || m in members;
    assert Names(whole) == {first.name} + Names(members);
    assert observed + Names(whole) == (observed + {first.name}) + Names(members);
  }

  /** The given members once each, then nothing but zeros, at least two blocks of them. */
  ghost predicate Layout(data: Bytes, members: seq<Member>, tail: nat, observed: set<string>, files: map<string, Bytes>)
    requires Candidate(files)
  {
    && Members(members, files) && Known(members, files)
    && data == Image(members, files) + Zeros(tail) && tail >= 1024
    && Covers(members, observed, AllNames())
  }

  ghost predicate IsBundleImage(data: Bytes, files: map<string, Bytes>)
    requires Candidate(files)
  {
    && |data| <= MAX_UNPACKED && |data| % 512 == 0
    && exists members, tail :: Layout(data, members, tail, {}, files)
  }

  lemma HeaderIsNotZero(header: Bytes, name: string, size: nat)
    requires GoodHeader(header, name, size)
    ensures !AllZero(header)
  {
    assert header[257..265][0] == header[257] == 'u';
  }

  /** A member at an offset is an encoded member there. */
  lemma MemberIsEncoded(data: Bytes, offset: nat, name: string, files: map<string, Bytes>)
    requires Candidate(files) && offset + BLOCK <= |data| && MemberAt(data, offset, name, files)
    ensures After(offset, name, files) <= |data|
    ensures data[offset..] == Encoded(Member(name, data[offset..offset + BLOCK]), files) + data[After(offset, name, files)..]
  {
    var body, n := files[name], |files[name]|;
    var start := offset + BLOCK;
    assert data[start + n..start + n + Padding(n)] == Zeros(Padding(n));
    assert data[offset..] == data[offset..start] + data[start..start + n] + data[start + n..start + n + Padding(n)] + data[start + n + Padding(n)..];
  }

  /** Acceptance from a boundary on gives the members from there on. */
  lemma {:induction false} ScanIsSound(data: Bytes, offset: nat, observed: set<string>, files: map<string, Bytes>)
      returns (members: seq<Member>, tail: nat)
    requires Candidate(files) && offset <= |data| && Scan(data, offset, observed, files)
    ensures Layout(data[offset..], members, tail, observed, files)
    decreases |data| - offset
  {
    if HeaderFollows(data, offset) {
      var header := data[offset..offset + BLOCK];
      var name := NameOf(header).value;
      var rest;
      rest, tail := ScanIsSound(data, After(offset, name, files), observed + {name}, files);
      var first := Member(name, header);
      members := [first] + rest;
      MemberIsEncoded(data, offset, name, files);
      LayoutCons(data[offset..], first, data[After(offset, name, files)..], rest, tail, observed, files);
    } else {
      members, tail := [], |data| - offset;
      assert data[offset..] == Zeros(tail);
      assert Image([], files) + Zeros(tail) == Zeros(tail);
      assert Names([]) == {};
    }
  }

  lemma LayoutCons(
      data: Bytes, first: Member, rest: Bytes, members: seq<Member>, tail: nat, observed: set<string>, files: map<string, Bytes>)
    requires Candidate(files) && first.name in FILES && first.name !in observed
    requires GoodHeader(first.header, first.name, |files[first.name]|)
    requires data == Encoded(first, files) + rest && Layout(rest, members, tail, observed + {first.name}, files)
    ensures Layout(data, [first] + members, tail, observed, files)
  {
    var all := [first] + members;
    assert all[1..] == members;
    assert Members(all, files) && Known(all, files) by {
      assert GoodMember(first, files);
      assert forall i :: 1 <= i < |all| ==> all[i] == members[i - 1];
    }
    assert Image(all, files) == Encoded(first, files) + Image(members, files);
    assert data == Image(all, files) + Zeros(tail);
    CoversCons(first, members, observed, AllNames());
  }

  /** Where a member starts, the loop reads exactly that member. */
  lemma EncodedIsRead(data: Bytes, offset: nat, m: Member, rest: Bytes, files: map<string, Bytes>)
    requires Candidate(files) && offset <= |data| && m.name in FILES
    requires GoodHeader(m.header, m.name, |files[m.name]|)
    requires data[offset..] == Encoded(m, files) + rest
    ensures HeaderFollows(data, offset) && data[offset..offset + BLOCK] == m.header
    ensures MemberAt(data, offset, m.name, files)
    ensures After(offset, m.name, files) <= |data| && data[After(offset, m.name, files)..] == rest
  {
    var from := data[offset..];
    var body, n := files[m.name], |files[m.name]|;
    assert from[..BLOCK] == m.header && from[BLOCK..BLOCK + n] == body;
    assert from[BLOCK + n..BLOCK + n + Padding(n)] == Zeros(Padding(n));
    assert data[offset..offset + BLOCK] == from[..BLOCK];
    assert data[offset + BLOCK..offset + BLOCK + n] == from[BLOCK..BLOCK + n];
    assert data[offset + BLOCK + n..offset + BLOCK + n + Padding(n)] == from[BLOCK + n..BLOCK + n + Padding(n)];
    assert data[After(offset, m.name, files)..] == from[BLOCK + n + Padding(n)..] == rest;
    HeaderIsNotZero(m.header, m.name, n);
  }

  /** Members laid out from a boundary on are accepted. */
  lemma {:induction false} ScanIsComplete(
      data: Bytes, offset: nat, members: seq<Member>, tail: nat, observed: set<string>, files: map<string, Bytes>)
    requires Candidate(files) && offset <= |data| && Layout(data[offset..], members, tail, observed, files)
    ensures Scan(data, offset, observed, files)
    decreases |members|
  {
    if members == [] {
      assert data[offset..] == Zeros(tail);
      assert Names(members) == {};
      assert offset + BLOCK <= |data| ==> data[offset..offset + BLOCK] == data[offset..][..BLOCK];
    } else {
      var m := members[0];
      var rest := Image(members[1..], files) + Zeros(tail);
      assert m in members && m.name in Names(members) && m.name in AllNames();
      assert GoodMember(m, files);
      assert data[offset..] == Encoded(m, files) + rest;
      EncodedIsRead(data, offset, m, rest, files);
      LayoutTail(rest, members, tail, observed, files);
      ScanIsComplete(data, After(offset, m.name, files), members[1..], tail, observed + {m.name}, files);
    }
  }

  lemma LayoutTail(rest: Bytes, members: seq<Member>, tail: nat, observed: set<string>, files: map<string, Bytes>)
    requires Candidate(files) && members != [] && Members(members, files) && Known(members, files) && tail >= 1024
    requires Covers(members, observed, AllNames())
    requires rest == Image(members[1..], files) + Zeros(tail)
    ensures members[0].name !in observed && Layout(rest, members[1..], tail, observed + {members[0].name}, files)
  {
    assert members == [members[0]] + members[1..];
    CoversCons(members[0], members[1..], observed, AllNames());
  }

  /** The loop accepts exactly the bundle images. */
  lemma ScanIffImage(data: Bytes, files: map<string, Bytes>)
    requires Candidate(files)
    ensures Scan(data, 0, {}, files) <==> exists members, tail :: Layout(data, members, tail, {}, files)
  {
    assert data[0..] == data;
    if Scan(data, 0, {}, files) {
      var members, tail := ScanIsSound(data, 0, {}, files);
      assert Layout(data, members, tail, {}, files);
    }
    if exists members, tail :: Layout(data, members, tail, {}, files) {
      var members, tail :| Layout(data, members, tail, {}, files);
      ScanIsComplete(data, 0, members, tail, {}, files);
    }
  }
}
