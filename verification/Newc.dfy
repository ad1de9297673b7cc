/**
 * What an archive unpacks to: entries, their encoding in the "newc" format, and the file-system
 * effects they stand for.  The encoding and the effects are stated on their own; the theorems say
 * that the unpacker makes exactly these effects, in whatever chunks the archive comes.
 */
module Newc {
  import opened Lists
  import opened Initramfs

  /** One entry; gap counts the words of zeros that follow it. */
  datatype Entry = Entry(
    ino: nat, mode: nat, uid: nat, gid: nat, nlink: nat, mtime: nat, major: nat, minor: nat,
    rmajor: nat, rminor: nat, check: nat, name: seq<Byte>, body: seq<Byte>, gap: nat)

  // ----- The format -----

  function Digit(d: nat): Byte
    requires d < 16
  {
    if d < 10 then 48 + d else 55 + d
  }

  /** The number in eight hexadecimal digits. */
  function Hex(n: nat, digits: nat): (r: seq<Byte>)
    ensures |r| == digits
  {
    if digits == 0 then [] else Hex(n / 16, digits - 1) + [Digit(n % 16)]
  }

  function Zeroes(n: nat): (r: seq<Byte>)
    ensures |r| == n && forall i :: 0 <= i < n ==> r[i] == 0
  {
    seq(n, _ => 0)
  }

  /** What brings n up to a multiple of four. */
  function Padding(n: nat): nat { (4 - n % 4) % 4 }

  function Fields(e: Entry): (r: seq<nat>)
    ensures |r| == 13
  {
    [e.ino, e.mode, e.uid, e.gid, e.nlink, e.mtime, |e.body|, e.major, e.minor, e.rmajor, e.rminor, |e.name| + 1, e.check]
  }

  function HexAll(l: seq<nat>): (r: seq<Byte>)
    ensures |r| == 8 * |l|
  {
    if l == [] then [] else HexAll(l[..|l| - 1]) + Hex(l[|l| - 1], 8)
  }

  function HeaderOf(e: Entry): (h: seq<Byte>)
    ensures |h| == HEADER
  {
    MAGIC + HexAll(Fields(e))
  }

  /** The name with its zero, filled up so that the body begins at a multiple of four. */
  function NameOf(e: Entry): seq<Byte> { e.name + [0] + Zeroes(Padding(HEADER + |e.name| + 1)) }

  function Encode(e: Entry): seq<Byte> {
    HeaderOf(e) + (NameOf(e) + (e.body + Zeroes(Padding(|e.body|) + 4 * e.gap)))
  }

  function Archive(es: seq<Entry>): seq<Byte> {
    if es == [] then [] else Encode(es[0]) + Archive(es[1..])
  }

  // ----- The effects -----

  function Mode(e: Entry): nat { e.mode % 65536 }

  function Kind(e: Entry): nat { Mode(e) / 4096 % 16 }

  /** Everything fits its field, the name has no zero of its own, and the entry is not one of those
      that do_header skips: name and link target fit a path, and only files and links have a body. */
  predicate Regular(e: Entry) {
    && (forall i :: 0 <= i < 13 ==> Fields(e)[i] < WORD)
    && 0 !in e.name && |e.name| < PATH_MAX
    && (Kind(e) == LNK ==> |e.body| <= PATH_MAX)
    && (Kind(e) != LNK && Kind(e) != REG ==> e.body == [])
  }

  /** The effects so far, and the names under which inodes with several links were made. */
  datatype Log = Log(links: map<LinkKey, seq<Byte>>, ops: seq<Op>)

  function Add(l: Log, ops: seq<Op>): Log { l.(ops := l.ops + ops) }

  function Inode(e: Entry): LinkKey { LinkKey(e.major, e.minor, e.ino, Kind(e)) }

  /** The entry is a further link to an inode that was made before. */
  predicate Again(e: Entry, l: Log) { e.nlink >= 2 && Inode(e) in l.links }

  function Noted(e: Entry, l: Log): Log {
    if e.nlink >= 2 then l.(links := l.links[Inode(e) := e.name]) else l
  }

  function Owned(e: Entry): Op { Own(e.name, e.uid, e.gid, Mode(e)) }

  /** The file is opened and filled. */
  function Filled(env: Env, e: Entry, l: Log, truncate: bool): Log {
    var o := Add(l, [Open(e.name, truncate, Mode(e))]);
    if env.openOk(o.ops) then Add(o, [Owned(e), Write(e.body), Close]) else o
  }

  /** A directory, a file, a node, or a further link to one of the two. */
  function Created(env: Env, e: Entry, l: Log): Log {
    if Kind(e) == DIR then Add(l, [Mkdir(e.name, Mode(e)), Owned(e)])
    else if Kind(e) == REG then
      if Again(e, l) then
        var k := Add(l, [Link(l.links[Inode(e)], e.name)]);
        if env.linkOk(k.ops) then Filled(env, e, k, false) else k
      else Filled(env, e, Noted(e, l), true)
    else if Kind(e) in {BLK, CHR, FIFO, SOCK} then
      if Again(e, l) then Add(l, [Link(l.links[Inode(e)], e.name)])
      else Add(Noted(e, l), [Mknod(e.name, Mode(e), (e.rmajor, e.rminor)), Owned(e)])
    else l
  }

  /** What an entry does: a symbolic link, the end of an archive, or something under its name after
      whatever was there has been cleaned away. */
  function Effect(env: Env, e: Entry, l: Log): Log {
    if Kind(e) == LNK then
      Add(l, [Clean(e.name, 0), Symlink(CString(e.body), e.name), Own(e.name, e.uid, e.gid, 0)])
    else if e.name == TRAILER then l.(links := map[])
    else Created(env, e, Add(l, [Clean(e.name, Kind(e))]))
  }

  function Effects(env: Env, es: seq<Entry>, l: Log): Log
    decreases |es|
  {
    if es == [] then l else Effects(env, es[1..], Effect(env, es[0], l))
  }

  // ----- The header is read back -----

  /** simple_strtoul reads what eight hexadecimal digits say. */
  ghost predicate ReadsNumbers(env: Env) { forall n: nat :: n < WORD ==> env.hex(Hex(n, 8)) == n }

  /** The number that hexadecimal digits say. */
  function Value(r: seq<Byte>): nat {
    if r == [] then 0
    else
      var d := r[|r| - 1];
      16 * Value(r[..|r| - 1]) + if 48 <= d < 58 then d - 48 else if 65 <= d < 71 then d - 55 else 0
  }

  function Power(k: nat): nat { if k == 0 then 1 else 16 * Power(k - 1) }

  lemma {:induction false} HexSays(n: nat, k: nat)
    requires n < Power(k)
    ensures Value(Hex(n, k)) == n
  {
    if k > 0 {
      HexSays(n / 16, k - 1);
      assert Hex(n, k)[..k - 1] == Hex(n / 16, k - 1);
    }
  }

  /** There is such a reader: no two numbers have the same digits. */
  lemma {:induction false} NumbersCanBeRead(linkOk: seq<Op> -> bool, openOk: seq<Op> -> bool)
    ensures ReadsNumbers(Env(Value, linkOk, openOk))
  {
    assert Power(4) == 65536 && Power(8) == WORD;
    forall n: nat | n < WORD ensures Value(Hex(n, 8)) == n {
      HexSays(n, 8);
    }
  }

  lemma {:induction false} HexAllAt(l: seq<nat>, i: nat)
    requires i < |l|
    ensures HexAll(l)[8 * i..8 * i + 8] == Hex(l[i], 8)
  {
    var n := |l| - 1;
    var a, b := HexAll(l[..n]), Hex(l[n], 8);
    assert HexAll(l) == a + b && |a| == 8 * n;
    if i < n {
      HexAllAt(l[..n], i);
      assert (a + b)[8 * i..8 * i + 8] == a[8 * i..8 * i + 8];
    } else {
      assert (a + b)[|a|..|a| + 8] == b;
    }
  }

  lemma {:induction false} FieldRead(env: Env, e: Entry, i: nat)
    requires ReadsNumbers(env) && i < 12 && Fields(e)[i] < WORD
    ensures Digits(env, HeaderOf(e), i) == Fields(e)[i]
  {
    HexAllAt(Fields(e), i);
    assert HeaderOf(e)[6 + 8 * i..14 + 8 * i] == HexAll(Fields(e))[8 * i..8 * i + 8];
    assert env.hex(Hex(Fields(e)[i], 8)) == Fields(e)[i];
  }

  function Parsed(e: Entry): Header {
    Header(e.ino, Mode(e), e.uid, e.gid, e.nlink, |e.body|, e.major, e.minor, (e.rmajor, e.rminor), |e.name| + 1)
  }

  lemma {:induction false} HeaderRead(env: Env, e: Entry)
    requires ReadsNumbers(env) && Regular(e)
    ensures HeaderOf(e)[..6] == MAGIC && ParseHeader(env, HeaderOf(e)) == Parsed(e) && !Skips(Parsed(e))
  {
    forall i: nat | i < 12 ensures Digits(env, HeaderOf(e), i) == Fields(e)[i] {
      FieldRead(env, e, i);
    }
  }

  /** The name field has the size that N_ALIGN computes. */
  lemma NameSize(e: Entry)
    requires |e.name| < PATH_MAX
    ensures |NameOf(e)| == NAlign(|e.name| + 1)
  {
  }

  lemma RoundUp(n: nat)
    ensures (n + 3) / 4 * 4 == n + Padding(n)
  {
  }

  lemma PaddingFrom(at: nat, n: nat)
    requires at % 4 == 0
    ensures Padding(at + n) == Padding(n) && (at + n + Padding(n)) % 4 == 0
  {
  }

  lemma NAlignRounds(len: nat, at: nat)
    requires at % 4 == 2
    ensures (at + NAlign(len)) % 4 == 0
  {
  }

  /** And the entry ends where next_header says. */
  lemma EntryLength(e: Entry, at: nat)
    requires |e.name| < PATH_MAX && at % 4 == 2
    ensures NextHeader(at, Parsed(e)) == at + |NameOf(e)| + |e.body| + Padding(|e.body|)
    ensures NextHeader(at, Parsed(e)) % 4 == 0
  {
    NameSize(e);
    NAlignRounds(|e.name| + 1, at);
    RoundUp(at + |NameOf(e)| + |e.body|);
    PaddingFrom(at + |NameOf(e)|, |e.body|);
  }

  lemma {:induction false} NameRead(e: Entry, y: seq<Byte>)
    requires 0 !in e.name
    ensures CString(NameOf(e) + y) == e.name && 0 in NameOf(e)
  {
    var rest := [0] + Zeroes(Padding(HEADER + |e.name| + 1));
    assert NameOf(e)[|e.name|] == 0;
    assert NameOf(e) + y == e.name + (rest + y);
    CStringGoesOn(e.name, rest + y);
    assert CString(rest + y) == [];
  }

  // ----- One entry -----

  function LogOf(s: Machine): Log { Log(s.names, s.trace) }

  /** The file is open: its contents are still to come. */
  predicate Opened(env: Env, e: Entry, l: Log, m: Machine) {
    && m.trace != [] && !m.trace[|m.trace| - 1].Write?
    && Log(m.names, m.trace + [Write(e.body), Close]) == l
  }

  /** The machine m, which has done all but the contents of an open file, stands for the log l. */
  predicate Stands(env: Env, e: Entry, l: Log, m: Machine) {
    if m.state == CopyFile then Kind(e) == REG && Opened(env, e, l, m) else m.state == SkipIt && LogOf(m) == l
  }

  lemma {:induction false} FileMade(env: Env, s: Machine, e: Entry)
    requires s.hdr == Parsed(e) && s.state == SkipIt && Kind(e) == REG
    ensures Stands(env, e, Created(env, e, LogOf(s)), MakeFile(env, s, e.name))
  {
    var m := MakeFile(env, s, e.name);
    var (s2, ml) := MaybeLink(env, s, e.name);
    if m.state == CopyFile {
      var o := s2.trace + [Open(e.name, ml != 1, Mode(e))];
      assert m.trace + [Write(e.body), Close] == o + [Owned(e), Write(e.body), Close];
    }
  }

  lemma {:induction false} NodeMade(env: Env, s: Machine, e: Entry)
    requires s.hdr == Parsed(e) && s.state == SkipIt && Kind(e) in {BLK, CHR, FIFO, SOCK}
    ensures Stands(env, e, Created(env, e, LogOf(s)), MakeNode(env, s, e.name))
  {
    var (s2, ml) := MaybeLink(env, s, e.name);
    var a, b := Mknod(e.name, Mode(e), (e.rmajor, e.rminor)), Owned(e);
    assert s2.trace + [a] + [b] == s2.trace + [a, b];
  }

  lemma {:induction false} EntryMade(env: Env, s: Machine, e: Entry)
    requires s.hdr == Parsed(e) && s.state == SkipIt && Kind(e) != LNK
    ensures Stands(env, e, Created(env, e, LogOf(s)), Make(env, s, e.name))
  {
    var a, b := Mkdir(e.name, Mode(e)), Owned(e);
    assert s.trace + [a] + [b] == s.trace + [a, b];
    if Kind(e) == REG {
      FileMade(env, s, e);
    } else if Kind(e) in {BLK, CHR, FIFO, SOCK} {
      NodeMade(env, s, e);
    }
  }

  /** do_name. */
  lemma {:induction false} NameDone(env: Env, s: Machine, e: Entry, x: seq<Byte>)
    requires s.state == GotName && s.hdr == Parsed(e) && s.collected == NameOf(e) && !s.strayed && 0 !in e.name && Kind(e) != LNK
    ensures var r := DoName(env, s, x);
      && !r.stop && r.input == x && !r.s.strayed && r.s.next == Reset && r.s.hdr == s.hdr && r.s.message == s.message
      && r.s.thisHeader == s.thisHeader && r.s.nextHeader == s.nextHeader
      && Stands(env, e, Effect(env, e, LogOf(s)), r.s)
  {
    NameMakes(env, s, x);
    NameRead(e, s.behind);
    var s1 := s.(state := SkipIt, next := Reset, strayed := s.strayed || 0 !in s.collected);
    EntryMade(env, Emit(s1, Clean(e.name, Kind(e))), e);
  }

  /** The rest of an entry is skipped. */
  lemma {:induction false} RestSkipped(env: Env, s: Machine, z: seq<Byte>, y: seq<Byte>) returns (u: Machine)
    requires Inv(s) && s.state == SkipIt && s.next == Reset && s.thisHeader + |z| == s.nextHeader
    ensures u == s.(thisHeader := s.nextHeader, state := Reset) && Inv(u) && Run(true, env, s, z + y) == Run(true, env, u, y)
  {
    assert (z + y)[|z|..] == y;
    RunStep(env, s, z + y);
    u := Act(true, env, s, z + y).s;
  }

  /** The contents of an open file are written. */
  lemma {:induction false} FileFilled(env: Env, s: Machine, e: Entry, l: Log, z: seq<Byte>) returns (t: Machine)
    requires Inv(s) && s.state == CopyFile && s.hdr == Parsed(e) && Opened(env, e, l, s)
    ensures Inv(t) && t.state == SkipIt && t.next == Reset && LogOf(t) == l && t.thisHeader == s.thisHeader + |e.body|
    ensures t.nextHeader == s.nextHeader && t.message == s.message && t.strayed == s.strayed
    ensures Run(true, env, s, e.body + z) == Run(true, env, t, z)
  {
    assert (e.body + z)[..|e.body|] == e.body && (e.body + z)[|e.body|..] == z;
    RunStep(env, s, e.body + z);
    t := Act(true, env, s, e.body + z).s;
    assert t.trace == s.trace + [Write(e.body)] + [Close];
    assert s.trace + [Write(e.body)] + [Close] == s.trace + [Write(e.body), Close];
  }

  /** The machine is about to read a header. */
  ghost predicate Ready(s: Machine) {
    Inv(s) && s.state == Start && s.thisHeader % 4 == 0 && s.message.None? && !s.strayed
  }

  /** The machine is through with an entry. */
  ghost predicate Through(s: Machine, l: Log) {
    Inv(s) && s.state == Reset && s.thisHeader % 4 == 0 && s.message.None? && !s.strayed && LogOf(s) == l
  }

  /** do_header has read the header of e. */
  ghost predicate AtHeader(g: Machine, e: Entry, l: Log) {
    && Inv(g) && g.state == GotHeader && g.collected == HeaderOf(e) && g.thisHeader % 4 == 2 && g.message.None? && !g.strayed
    && LogOf(g) == l
  }

  function EndOf(g: Machine, e: Entry): nat { g.thisHeader + |NameOf(e)| + |e.body| + Padding(|e.body|) }

  /** What do_header makes of the header of e. */
  lemma {:induction false} HeaderDone(env: Env, g: Machine, e: Entry, x: seq<Byte>)
    requires ReadsNumbers(env) && Regular(e) && AtHeader(g, e, LogOf(g))
    ensures EndOf(g, e) % 4 == 0 && |NameOf(e)| == NAlign(|e.name| + 1)
    ensures var g1 := g.(hdr := Parsed(e), nextHeader := EndOf(g, e));
      Act(true, env, g, x) ==
      if Kind(e) == LNK then
        Step(g1.(collected := [], remains := |NameOf(e)| + |e.body|, next := GotSymlink, state := Collect), x, false)
      else ReadInto(true, g1, x, |NameOf(e)|, GotName)
  {
    HeaderRead(env, e);
    NameSize(e);
    EntryLength(e, g.thisHeader);
  }

  /** From the header to the name. */
  lemma {:induction false} NameFound(env: Env, g: Machine, e: Entry, z: seq<Byte>) returns (t: Machine)
    requires ReadsNumbers(env) && Regular(e) && Kind(e) != LNK && AtHeader(g, e, LogOf(g))
    ensures Inv(t) && t.state == GotName && t.collected == NameOf(e) && t.hdr == Parsed(e) && LogOf(t) == LogOf(g)
    ensures t.thisHeader == g.thisHeader + |NameOf(e)| && t.nextHeader == EndOf(g, e) && t.nextHeader % 4 == 0
    ensures t.message.None? && !t.strayed && Run(true, env, g, NameOf(e) + z) == Run(true, env, t, z)
  {
    var f := NameOf(e);
    HeaderDone(env, g, e, f + z);
    assert (f + z)[..|f|] == f && (f + z)[|f|..] == z;
    RunStep(env, g, f + z);
    t := Act(true, env, g, f + z).s;
  }

  /** And to what is made under it. */
  lemma {:induction false} NameTaken(env: Env, g: Machine, e: Entry, z: seq<Byte>) returns (m: Machine)
    requires ReadsNumbers(env) && Regular(e) && Kind(e) != LNK && AtHeader(g, e, LogOf(g))
    ensures Inv(m) && Stands(env, e, Effect(env, e, LogOf(g)), m) && m.hdr == Parsed(e) && m.next == Reset
    ensures m.thisHeader + |e.body| + Padding(|e.body|) == m.nextHeader && m.nextHeader % 4 == 0 && m.message.None? && !m.strayed
    ensures Run(true, env, g, NameOf(e) + z) == Run(true, env, m, z)
  {
    var t := NameFound(env, g, e, z);
    NameDone(env, t, e, z);
    RunStep(env, t, z);
    m := Act(true, env, t, z).s;
  }

  lemma {:induction false} PlainEntry(env: Env, g: Machine, e: Entry, y: seq<Byte>) returns (u: Machine)
    requires ReadsNumbers(env) && Regular(e) && Kind(e) != LNK && AtHeader(g, e, LogOf(g))
    ensures Through(u, Effect(env, e, LogOf(g)))
    ensures Run(true, env, g, NameOf(e) + (e.body + (Zeroes(Padding(|e.body|)) + y))) == Run(true, env, u, y)
  {
    var pad := Zeroes(Padding(|e.body|));
    var m := NameTaken(env, g, e, e.body + (pad + y));
    if m.state == CopyFile {
      var t := FileFilled(env, m, e, Effect(env, e, LogOf(g)), pad + y);
      u := RestSkipped(env, t, pad, y);
    } else {
      assert e.body + (pad + y) == (e.body + pad) + y;
      u := RestSkipped(env, m, e.body + pad, y);
    }
  }

  /** do_symlink. */
  lemma {:induction false} LinkDone(env: Env, s: Machine, e: Entry, x: seq<Byte>)
    requires s.state == GotSymlink && s.hdr == Parsed(e) && s.collected == NameOf(e) + e.body && 0 !in e.name
    requires |e.name| < PATH_MAX && Kind(e) == LNK
    ensures |s.collected| >= NAlign(s.hdr.nameLen)
    ensures DoSymlink(s, x) == Step(s.(state := SkipIt, next := Reset, trace := Effect(env, e, LogOf(s)).ops), x, false)
    ensures Effect(env, e, LogOf(s)).links == s.names
  {
    NameSize(e);
    NameRead(e, e.body);
    assert (NameOf(e) + e.body)[|NameOf(e)|..] == e.body;
    var a, b, c := Clean(e.name, 0), Symlink(CString(e.body), e.name), Own(e.name, e.uid, e.gid, 0);
    assert s.trace + [a] + [b] + [c] == s.trace + [a, b, c];
  }

  /** From the header of a symbolic link to the end of its target. */
  lemma {:induction false} LinkTaken(env: Env, g: Machine, e: Entry, z: seq<Byte>) returns (t: Machine)
    requires ReadsNumbers(env) && Regular(e) && Kind(e) == LNK && AtHeader(g, e, LogOf(g))
    ensures Inv(t) && t.state == GotSymlink && t.collected == NameOf(e) + e.body && t.hdr == Parsed(e) && LogOf(t) == LogOf(g)
    ensures t.thisHeader + Padding(|e.body|) == t.nextHeader && t.nextHeader % 4 == 0 && t.message.None? && !t.strayed
    ensures Run(true, env, g, NameOf(e) + e.body + z) == Run(true, env, t, z)
  {
    var f := NameOf(e) + e.body;
    HeaderDone(env, g, e, f + z);
    RunStep(env, g, f + z);
    var c := Act(true, env, g, f + z).s;
    assert (f + z)[..|f|] == f && (f + z)[|f|..] == z && [] + f == f;
    RunStep(env, c, f + z);
    t := Act(true, env, c, f + z).s;
  }

  lemma {:induction false} LinkEntry(env: Env, g: Machine, e: Entry, y: seq<Byte>) returns (u: Machine)
    requires ReadsNumbers(env) && Regular(e) && Kind(e) == LNK && AtHeader(g, e, LogOf(g))
    ensures Through(u, Effect(env, e, LogOf(g)))
    ensures Run(true, env, g, NameOf(e) + e.body + (Zeroes(Padding(|e.body|)) + y)) == Run(true, env, u, y)
  {
    var pad := Zeroes(Padding(|e.body|));
    var t := LinkTaken(env, g, e, pad + y);
    LinkDone(env, t, e, pad + y);
    RunStep(env, t, pad + y);
    u := RestSkipped(env, Act(true, env, t, pad + y).s, pad, y);
  }

  /** The parts of an entry, with y behind it. */
  lemma {:induction false} EncodeParts(e: Entry, y: seq<Byte>)
    ensures var z := Zeroes(Padding(|e.body|)) + (Zeroes(4 * e.gap) + y);
      && Encode(e) + y == HeaderOf(e) + (NameOf(e) + (e.body + z)) && NameOf(e) + (e.body + z) == NameOf(e) + e.body + z
  {
    assert Zeroes(Padding(|e.body|) + 4 * e.gap) == Zeroes(Padding(|e.body|)) + Zeroes(4 * e.gap);
  }

  lemma {:induction false} HeaderTaken(env: Env, s: Machine, e: Entry, z: seq<Byte>) returns (g: Machine)
    requires Ready(s)
    ensures AtHeader(g, e, LogOf(s)) && Run(true, env, s, HeaderOf(e) + z) == Run(true, env, g, z)
  {
    g := StartReads(env, s, HeaderOf(e), z);
    BehindHeader(s.thisHeader);
  }

  /** One entry, whole in the input, makes its effects. */
  lemma {:induction false} EntryUnpacks(env: Env, s: Machine, e: Entry, y: seq<Byte>) returns (u: Machine)
    requires ReadsNumbers(env) && Regular(e) && Ready(s)
    ensures Through(u, Effect(env, e, LogOf(s)))
    ensures Run(true, env, s, Encode(e) + y) == Run(true, env, u, Zeroes(4 * e.gap) + y)
  {
    var z := Zeroes(4 * e.gap) + y;
    var rest := NameOf(e) + (e.body + (Zeroes(Padding(|e.body|)) + z));
    EncodeParts(e, y);
    var g := HeaderTaken(env, s, e, rest);
    if Kind(e) == LNK {
      u := LinkEntry(env, g, e, z);
    } else {
      u := PlainEntry(env, g, e, z);
    }
  }

  // ----- The archive -----

  lemma {:induction false} ZerosCounted(n: nat, y: seq<Byte>)
    requires y == [] || y[0] != 0
    ensures Zeros(Zeroes(n) + y) == n && (Zeroes(n) + y)[n..] == y
  {
    var x := Zeroes(n) + y;
    if n > 0 {
      ZerosCounted(n - 1, y);
      assert x[1..] == Zeroes(n - 1) + y;
    } else {
      assert x == y;
    }
  }

  /** The zeros behind an entry are passed over, and the next header is left for later. */
  lemma {:induction false} GapPassed(env: Env, u: Machine, l: Log, gap: nat, y: seq<Byte>) returns (v: Machine)
    requires Through(u, l) && (y == [] || y[0] == ZERO_DIGIT)
    ensures Through(v, l) && Run(true, env, u, Zeroes(4 * gap) + y) == (v, y)
  {
    ZerosCounted(4 * gap, y);
    v := Eat(u, 4 * gap);
    assert Run(true, env, u, Zeroes(4 * gap) + y) == (v, y);
  }

  lemma {:induction false} ArchiveBegins(es: seq<Entry>)
    ensures Archive(es) == [] || Archive(es)[0] == ZERO_DIGIT
  {
  }

  /** For every list of entries that are not skipped the unpacker makes exactly their effects. */
  lemma {:induction false} ArchiveUnpacks(env: Env, s: Machine, es: seq<Entry>)
    requires ReadsNumbers(env) && Ready(s) && forall i :: 0 <= i < |es| ==> Regular(es[i])
    ensures var t := Feed(true, env, s, Archive(es)); LogOf(t) == Effects(env, es, LogOf(s)) && t.message.None? && !t.strayed
    decreases |es|
  {
    if es == [] {
      CutWaits(env, s, []);
    } else {
      var e, rest := es[0], Archive(es[1..]);
      ArchiveBegins(es[1..]);
      var u := EntryUnpacks(env, s, e, rest);
      var v := GapPassed(env, u, Effect(env, e, LogOf(s)), e.gap, rest);
      assert Feed(true, env, s, Archive(es)) == After(true, env, v, rest);
      if es[1..] != [] {
        ArchiveUnpacks(env, v.(state := Start), es[1..]);
      }
    }
  }

  /** And however the archive is cut into chunks. */
  lemma {:induction false} UnpacksInChunks(env: Env, s: Machine, es: seq<Entry>, chunks: seq<seq<Byte>>)
    requires ReadsNumbers(env) && Booted(s) && forall i :: 0 <= i < |es| ==> Regular(es[i])
    requires Join(chunks) == Archive(es)
    ensures var t := FeedAll(true, env, s, chunks);
      t.trace == Effects(env, es, Log(map[], [])).ops && t.message.None?
  {
    if chunks == [] {
      assert es == [];
    } else {
      ChunkingIsInvisible(env, s, chunks);
      ArchiveUnpacks(env, s, es);
    }
  }
}
