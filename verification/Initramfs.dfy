/** The cpio unpacker of init/initramfs.c: a resumable state machine over the "newc" format that is
    fed the archive in chunks, and the proof that the chunking does not matter. */
module Initramfs {
  import opened Lists

  type Byte = b: int | 0 <= b < 256

  datatype State = Start | Collect | GotHeader | SkipIt | GotName | CopyFile | GotSymlink | Reset

  datatype Message = NoCpioMagic | BrokenPadding | JunkInArchive

  /** The header fields that parse_header stores. */
  datatype Header = Header(
    ino: nat, mode: nat, uid: nat, gid: nat, nlink: nat, bodyLen: nat,
    major: nat, minor: nat, rdev: (nat, nat), nameLen: nat)

  /** File-system effects, in the order they are made. Data written to a file one after the other
      is one Write: what counts is the contents of the file. */
  datatype Op =
    | Clean(path: seq<Byte>, format: nat)
    | Link(old_: seq<Byte>, path: seq<Byte>)
    | Open(path: seq<Byte>, truncate: bool, mode: nat)
    | Own(path: seq<Byte>, uid: nat, gid: nat, mode: nat)
    | Write(bytes: seq<Byte>)
    | Close
    | Mkdir(path: seq<Byte>, mode: nat)
    | Mknod(path: seq<Byte>, mode: nat, rdev: (nat, nat))
    | Symlink(target: seq<Byte>, path: seq<Byte>)

  /** Code outside the unpacker: simple_strtoul on eight digits, and whether the link or open that
      ends a sequence of effects succeeds. */
  datatype Env = Env(hex: seq<Byte> -> nat, linkOk: seq<Op> -> bool, openOk: seq<Op> -> bool)

  datatype LinkKey = LinkKey(major: nat, minor: nat, ino: nat, format: nat)

  /** The global variables of the unpacker. collected is the bytes at the collected pointer: all of
      the field once it is complete, those copied so far while it is being collected. behind is what
      follows a name field in memory: the rest of the chunk when the field was found in the input,
      what name_buf still holds when it was collected there. strayed is set on the two paths where
      the original goes on with stale data: an entry that do_header skips (next_state is left as it
      was) and a name without a terminating zero. */
  datatype Machine = Machine(
    state: State, next: State,
    thisHeader: nat, nextHeader: nat,
    hdr: Header, collected: seq<Byte>, remains: nat, nameBuf: seq<Byte>, behind: seq<Byte>,
    names: map<LinkKey, seq<Byte>>, trace: seq<Op>,
    message: Option<Message>, strayed: bool)

  /** The result of an action: the machine, the input it left, and whether it returned 1. */
  datatype Step = Step(s: Machine, input: seq<Byte>, stop: bool)

  const PATH_MAX: nat := 4096
  const HEADER: nat := 110
  const WORD: nat := 0x1_0000_0000

  // S_IFMT values of mode >> 12
  const FIFO: nat := 1
  const CHR: nat := 2
  const DIR: nat := 4
  const BLK: nat := 6
  const REG: nat := 8
  const LNK: nat := 10
  const SOCK: nat := 12

  /** N_ALIGN, in unsigned long arithmetic. */
  function NAlign(len: nat): nat {
    (len + 1) % WORD / 4 * 4 + 2
  }

  function Format(mode: nat): nat {
    mode / 4096 % 16
  }

  function Digits(env: Env, h: seq<Byte>, i: nat): nat
    requires |h| == HEADER && i < 12
  {
    env.hex(h[6 + 8 * i..14 + 8 * i]) % WORD
  }

  function ParseHeader(env: Env, h: seq<Byte>): Header
    requires |h| == HEADER
  {
    Header(Digits(env, h, 0), Digits(env, h, 1) % 65536, Digits(env, h, 2), Digits(env, h, 3), Digits(env, h, 4),
           Digits(env, h, 6), Digits(env, h, 7), Digits(env, h, 8), (Digits(env, h, 9), Digits(env, h, 10)),
           Digits(env, h, 11))
  }

  const MAGIC: seq<Byte> := [48, 55, 48, 55, 48, 49]
  const TRAILER: seq<Byte> := [84, 82, 65, 73, 76, 69, 82, 33, 33, 33]

  /** The C string at the start of a buffer. */
  function CString(b: seq<Byte>): (r: seq<Byte>)
    ensures |r| <= |b|
  {
    if b == [] || b[0] == 0 then [] else [b[0]] + CString(b[1..])
  }

  function Eat(s: Machine, n: nat): Machine {
    s.(thisHeader := s.thisHeader + n)
  }

  function Fail(s: Machine, m: Message): Machine {
    if s.message.None? then s.(message := Some(m)) else s
  }

  function Emit(s: Machine, op: Op): Machine {
    s.(trace := s.trace + [op])
  }

  /** sys_write to the open file: contents written in pieces are the same contents. */
  function EmitWrite(s: Machine, bytes: seq<Byte>): Machine {
    var n := |s.trace|;
    if n > 0 && s.trace[n - 1].Write? then s.(trace := s.trace[..n - 1] + [Write(s.trace[n - 1].bytes + bytes)])
    else Emit(s, Write(bytes))
  }

  // ----- The actions. direct is true for the original; false makes read_into always collect, and
  //       clears body_len when a file is complete, which gives the reference machine. -----

  function ReadInto(direct: bool, s: Machine, x: seq<Byte>, size: nat, next: State): Step {
    if direct && |x| >= size then
      Step(Eat(s, size).(collected := x[..size], behind := x[size..], state := next), x[size..], false)
    else
      Step(s.(collected := [], remains := size, next := next, state := Collect), x, false)
  }

  /** What a buffer holds behind its first n bytes. */
  function Rest(buf: seq<Byte>, n: nat): seq<Byte> { if n <= |buf| then buf[n..] else [] }

  /** A name field is complete in name_buf. */
  function Landed(s: Machine): Machine {
    if s.next != GotName then s
    else s.(nameBuf := s.collected + Rest(s.nameBuf, |s.collected|), behind := Rest(s.nameBuf, |s.collected|))
  }

  function DoCollect(s: Machine, x: seq<Byte>): Step {
    var n := if |x| < s.remains then |x| else s.remains;
    var s' := Eat(s, n).(collected := s.collected + x[..n], remains := s.remains - n);
    if s'.remains != 0 then Step(s', x[n..], true) else Step(Landed(s').(state := s.next), x[n..], false)
  }

  /** do_header leaves next_state as it was. */
  predicate Skips(h: Header) {
    || h.nameLen == 0 || h.nameLen > PATH_MAX
    || (Format(h.mode) == LNK && h.bodyLen > PATH_MAX)
    || (Format(h.mode) != LNK && Format(h.mode) != REG && h.bodyLen != 0)
  }

  function NextHeader(at: nat, h: Header): nat {
    (at + NAlign(h.nameLen) + h.bodyLen + 3) / 4 * 4
  }

  function DoHeader(direct: bool, env: Env, s: Machine, x: seq<Byte>): Step
    requires |s.collected| == HEADER
  {
    if s.collected[..6] != MAGIC then Step(Fail(s, NoCpioMagic), x, true)
    else
      var h := ParseHeader(env, s.collected);
      var s1 := s.(hdr := h, nextHeader := NextHeader(s.thisHeader, h));
      if Skips(h) then Step(s1.(state := SkipIt, strayed := true), x, false)
      else if Format(h.mode) == LNK then
        Step(s1.(collected := [], remains := NAlign(h.nameLen) + h.bodyLen, next := GotSymlink, state := Collect), x, false)
      else ReadInto(direct, s1, x, NAlign(h.nameLen), GotName)
  }

  function DoSkip(s: Machine, x: seq<Byte>): Step
    requires s.thisHeader <= s.nextHeader
  {
    if s.thisHeader + |x| < s.nextHeader then Step(Eat(s, |x|), [], true)
    else
      var n := s.nextHeader - s.thisHeader;
      Step(Eat(s, n).(state := s.next), x[n..], false)
  }

  /** The zero bytes at the start of the input. */
  function Zeros(x: seq<Byte>): (n: nat)
    ensures n <= |x|
    ensures n < |x| ==> x[n] != 0
  {
    if x == [] || x[0] != 0 then 0 else 1 + Zeros(x[1..])
  }

  /** The zero bytes are gone, and left is what follows them. */
  function PaddingEnds(s: Machine, left: seq<Byte>): Step {
    Step(if left != [] && s.thisHeader % 4 != 0 then Fail(s, BrokenPadding) else s, left, true)
  }

  function DoReset(s: Machine, x: seq<Byte>): Step {
    PaddingEnds(Eat(s, Zeros(x)), x[Zeros(x)..])
  }

  /** maybe_link: 0 when the name is not a further link, 1 or -1 for the result of sys_link. */
  function MaybeLink(env: Env, s: Machine, path: seq<Byte>): (r: (Machine, int)) {
    if s.hdr.nlink < 2 then (s, 0)
    else
      var key := LinkKey(s.hdr.major, s.hdr.minor, s.hdr.ino, Format(s.hdr.mode));
      if key in s.names then
        var s' := Emit(s, Link(s.names[key], path));
        (s', if env.linkOk(s'.trace) then 1 else -1)
      else (s.(names := s.names[key := path]), 0)
  }

  /** do_name for a regular file: a link, or a new file that is then filled. */
  function MakeFile(env: Env, s: Machine, path: seq<Byte>): Machine {
    var (s2, ml) := MaybeLink(env, s, path);
    if ml < 0 then s2
    else
      var s3 := Emit(s2, Open(path, ml != 1, s.hdr.mode));
      if env.openOk(s3.trace) then Emit(s3, Own(path, s.hdr.uid, s.hdr.gid, s.hdr.mode)).(state := CopyFile) else s3
  }

  function MakeDir(s: Machine, path: seq<Byte>): Machine {
    Emit(Emit(s, Mkdir(path, s.hdr.mode)), Own(path, s.hdr.uid, s.hdr.gid, s.hdr.mode))
  }

  function MakeNode(env: Env, s: Machine, path: seq<Byte>): Machine {
    var (s2, ml) := MaybeLink(env, s, path);
    if ml != 0 then s2
    else Emit(Emit(s2, Mknod(path, s.hdr.mode, s.hdr.rdev)), Own(path, s.hdr.uid, s.hdr.gid, s.hdr.mode))
  }

  function Make(env: Env, s: Machine, path: seq<Byte>): Machine {
    var f := Format(s.hdr.mode);
    if f == REG then MakeFile(env, s, path)
    else if f == DIR then MakeDir(s, path)
    else if f in {BLK, CHR, FIFO, SOCK} then MakeNode(env, s, path)
    else s
  }

  function DoName(env: Env, s0: Machine, x: seq<Byte>): Step {
    var path := CString(s0.collected + s0.behind);
    var s := s0.(state := SkipIt, next := Reset, strayed := s0.strayed || 0 !in s0.collected);
    if path == TRAILER then Step(s.(names := map[]), x, false)
    else Step(Make(env, Emit(s, Clean(path, Format(s.hdr.mode))), path), x, false)
  }

  /** The last piece of a file is written, and the file is closed. */
  function LastPiece(direct: bool, s: Machine, bytes: seq<Byte>): Machine {
    Eat(Emit(EmitWrite(s, bytes), Close), |bytes|)
      .(state := SkipIt, hdr := s.hdr.(bodyLen := if direct then s.hdr.bodyLen else 0))
  }

  /** A piece of a file is written, and more is to come. */
  function Piece(s: Machine, bytes: seq<Byte>): Machine
    requires |bytes| < s.hdr.bodyLen
  {
    Eat(EmitWrite(s, bytes), |bytes|).(hdr := s.hdr.(bodyLen := s.hdr.bodyLen - |bytes|))
  }

  function DoCopy(direct: bool, s: Machine, x: seq<Byte>): Step {
    var n := s.hdr.bodyLen;
    if |x| >= n then Step(LastPiece(direct, s, x[..n]), x[n..], false) else Step(Piece(s, x), [], true)
  }

  function DoSymlink(s: Machine, x: seq<Byte>): Step
    requires |s.collected| >= NAlign(s.hdr.nameLen)
  {
    var path := CString(s.collected);
    var target := CString(s.collected[NAlign(s.hdr.nameLen)..]);
    var s1 := Emit(Emit(Emit(s, Clean(path, 0)), Symlink(target, path)), Own(path, s.hdr.uid, s.hdr.gid, 0));
    Step(s1.(state := SkipIt, next := Reset), x, false)
  }

  // ----- What holds in every reachable state -----

  /** The size of the field that is collected for the given state. */
  function FieldSize(h: Header, next: State): nat {
    match next
    case GotHeader => HEADER
    case GotName => NAlign(h.nameLen)
    case GotSymlink => NAlign(h.nameLen) + h.bodyLen
    case _ => 0
  }

  /** How far the position may be from the next header while body bytes are still to come. */
  function BodyAhead(s: Machine, next: State): nat {
    if next == GotName then s.hdr.bodyLen else 0
  }

  ghost predicate Inv(s: Machine) {
    match s.state
    case Start => s.next in {Start, GotHeader, Reset}
    case Collect =>
      && s.next in {GotHeader, GotName, GotSymlink}
      && 0 < s.remains && |s.collected| + s.remains == FieldSize(s.hdr, s.next)
      && (s.next != GotHeader ==> s.thisHeader + s.remains + BodyAhead(s, s.next) <= s.nextHeader)
    case GotHeader => |s.collected| == HEADER && s.next in {Start, GotHeader, Reset}
    case GotName => |s.collected| == NAlign(s.hdr.nameLen) && s.thisHeader + s.hdr.bodyLen <= s.nextHeader
    case GotSymlink => |s.collected| == FieldSize(s.hdr, GotSymlink) && s.thisHeader <= s.nextHeader
    case CopyFile => s.thisHeader + s.hdr.bodyLen <= s.nextHeader && s.next == Reset
    case SkipIt =>
      && s.thisHeader <= s.nextHeader && s.next in {Start, GotHeader, Reset}
      && (s.next != Reset ==> s.thisHeader < s.nextHeader)
      && (s.next == GotHeader ==> |s.collected| == HEADER)
      && (!s.strayed ==> s.next == Reset)
    case Reset => s.next in {Start, GotHeader, Reset}
  }

  function Act(direct: bool, env: Env, s: Machine, x: seq<Byte>): Step
    requires Inv(s)
  {
    match s.state
    case Start => ReadInto(direct, s, x, HEADER, GotHeader)
    case Collect => DoCollect(s, x)
    case GotHeader => DoHeader(direct, env, s, x)
    case SkipIt => DoSkip(s, x)
    case GotName => DoName(env, s, x)
    case CopyFile => DoCopy(direct, s, x)
    case GotSymlink => DoSymlink(s, x)
    case Reset => DoReset(s, x)
  }

  /** How many actions can follow without input. */
  function Rank(s: State): nat {
    match s
    case Start => 6
    case GotHeader => 5
    case GotName => 4
    case GotSymlink => 4
    case CopyFile => 3
    case SkipIt => 2
    case Reset => 1
    case Collect => 0
  }

  ghost predicate Keeps(s: Machine, x: seq<Byte>, r: Step) {
    && Inv(r.s) && |r.input| <= |x|
    && (!r.stop ==> |r.input| < |x| || Rank(r.s.state) < Rank(s.state))
    && (r.stop && r.input != [] ==> Halted(r.s))
  }

  /** Where the machine can be when it leaves input behind. */
  predicate Halted(s: Machine) {
    s.state == Reset || (s.state == GotHeader && s.message.Some?)
  }

  lemma NextHeaderAhead(at: nat, h: Header)
    ensures NextHeader(at, h) >= at + NAlign(h.nameLen) + h.bodyLen && NAlign(h.nameLen) >= 2
  {
  }

  lemma {:induction false} SkippedKeeps(direct: bool, env: Env, s: Machine, x: seq<Byte>)
    requires Inv(s) && s.state == GotHeader && s.collected[..6] == MAGIC && Skips(ParseHeader(env, s.collected))
    ensures Keeps(s, x, DoHeader(direct, env, s, x))
  {
    NextHeaderAhead(s.thisHeader, ParseHeader(env, s.collected));
  }

  /** A name field is asked for, with the body behind it. */
  lemma {:induction false} FieldKeeps(direct: bool, s: Machine, h: Header, x: seq<Byte>)
    requires s.state == GotHeader
    ensures Keeps(s, x, ReadInto(direct, s.(hdr := h, nextHeader := NextHeader(s.thisHeader, h)), x, NAlign(h.nameLen), GotName))
  {
    NextHeaderAhead(s.thisHeader, h);
  }

  lemma {:induction false} HeaderKeeps(direct: bool, env: Env, s: Machine, x: seq<Byte>)
    requires Inv(s) && s.state == GotHeader
    ensures Keeps(s, x, DoHeader(direct, env, s, x))
  {
    var h := ParseHeader(env, s.collected);
    if s.collected[..6] == MAGIC {
      if Skips(h) {
        SkippedKeeps(direct, env, s, x);
      } else {
        NextHeaderAhead(s.thisHeader, h);
        FieldKeeps(direct, s, h, x);
      }
    }
  }

  /** Making something changes the trace and the known links, and may open a file. */
  ghost predicate Made(s: Machine, t: Machine) {
    (t.state == s.state || t.state == CopyFile) && t == s.(state := t.state, trace := t.trace, names := t.names)
  }

  lemma {:induction false} LinkMakes(env: Env, s: Machine, path: seq<Byte>)
    ensures Made(s, MaybeLink(env, s, path).0) && MaybeLink(env, s, path).0.state == s.state
  {
  }

  lemma {:induction false} FileMakes(env: Env, s: Machine, path: seq<Byte>)
    ensures Made(s, MakeFile(env, s, path))
  {
    LinkMakes(env, s, path);
  }

  lemma {:induction false} NodeMakes(env: Env, s: Machine, path: seq<Byte>)
    ensures Made(s, MakeNode(env, s, path))
  {
    LinkMakes(env, s, path);
  }

  lemma {:induction false} MakeMakes(env: Env, s: Machine, path: seq<Byte>)
    ensures Made(s, Make(env, s, path))
  {
    FileMakes(env, s, path);
    NodeMakes(env, s, path);
  }

  lemma {:induction false} NameMakes(env: Env, s: Machine, x: seq<Byte>)
    ensures var r := DoName(env, s, x);
      && !r.stop && r.input == x
      && Made(s.(state := SkipIt, next := Reset, strayed := s.strayed || 0 !in s.collected), r.s)
  {
    var path := CString(s.collected + s.behind);
    var s1 := s.(state := SkipIt, next := Reset, strayed := s.strayed || 0 !in s.collected);
    MakeMakes(env, Emit(s1, Clean(path, Format(s.hdr.mode))), path);
  }

  lemma {:induction false} NameKeeps(env: Env, s: Machine, x: seq<Byte>)
    requires Inv(s) && s.state == GotName
    ensures Keeps(s, x, DoName(env, s, x))
  {
    NameMakes(env, s, x);
  }

  lemma {:induction false} StartKeeps(direct: bool, s: Machine, x: seq<Byte>)
    requires Inv(s) && s.state == Start
    ensures Keeps(s, x, ReadInto(direct, s, x, HEADER, GotHeader))
  {
  }

  lemma {:induction false} CollectKeeps(s: Machine, x: seq<Byte>)
    requires Inv(s) && s.state == Collect
    ensures Keeps(s, x, DoCollect(s, x))
  {
  }

  lemma {:induction false} SkipKeeps(s: Machine, x: seq<Byte>)
    requires Inv(s) && s.state == SkipIt
    ensures Keeps(s, x, DoSkip(s, x))
  {
  }

  lemma {:induction false} CopyKeeps(direct: bool, s: Machine, x: seq<Byte>)
    requires Inv(s) && s.state == CopyFile
    ensures Keeps(s, x, DoCopy(direct, s, x))
  {
  }

  lemma {:induction false} SymlinkKeeps(s: Machine, x: seq<Byte>)
    requires Inv(s) && s.state == GotSymlink
    ensures Keeps(s, x, DoSymlink(s, x))
  {
  }

  lemma {:induction false} ResetKeeps(s: Machine, x: seq<Byte>)
    requires Inv(s) && s.state == Reset
    ensures Keeps(s, x, DoReset(s, x))
  {
  }

  /** Every action keeps the invariant, in particular this_header <= next_header while skipping, so
      that eat never underflows; and an action that does not stop consumes input or moves the machine on. */
  lemma {:induction false} ActKeeps(direct: bool, env: Env, s: Machine, x: seq<Byte>)
    requires Inv(s)
    ensures Keeps(s, x, Act(direct, env, s, x))
  {
    match s.state
    case Start => StartKeeps(direct, s, x);
    case Collect => CollectKeeps(s, x);
    case GotHeader => HeaderKeeps(direct, env, s, x);
    case SkipIt => SkipKeeps(s, x);
    case GotName => NameKeeps(env, s, x);
    case CopyFile => CopyKeeps(direct, s, x);
    case GotSymlink => SymlinkKeeps(s, x);
    case Reset => ResetKeeps(s, x);
  }

  // ----- write_buffer and flush_buffer -----

  /** write_buffer: actions until one returns 1; the result is the machine and the input left. */
  function Run(direct: bool, env: Env, s: Machine, x: seq<Byte>): (r: (Machine, seq<Byte>))
    requires Inv(s)
    ensures Inv(r.0) && |r.1| <= |x|
    ensures r.1 != [] ==> Halted(r.0)
    decreases |x|, Rank(s.state)
  {
    ActKeeps(direct, env, s, x);
    var r := Act(direct, env, s, x);
    if r.stop then (r.s, r.input) else Run(direct, env, r.s, r.input)
  }

  /** The machine is set up to take at least one byte. */
  predicate Hungry(s: Machine, x: seq<Byte>) {
    x != [] && (s.state == Start || (s.state == Reset && x[0] == 0))
  }

  lemma HungryEats(direct: bool, env: Env, s: Machine, x: seq<Byte>)
    requires Inv(s) && Hungry(s, x)
    ensures |Run(direct, env, s, x).1| < |x|
  {
  }

  const ZERO_DIGIT: Byte := 48

  /** flush_buffer: one chunk of the archive. */
  function Feed(direct: bool, env: Env, s: Machine, x: seq<Byte>): (r: Machine)
    requires Inv(s)
    ensures Inv(r)
    decreases |x|, if Hungry(s, x) then 0 else 2
  {
    if s.message.Some? then s
    else
      var (s1, rest) := Run(direct, env, s, x);
      if Hungry(s, x) then HungryEats(direct, env, s, x); After(direct, env, s1, rest) else After(direct, env, s1, rest)
  }

  /** What flush_buffer does with input that write_buffer left. */
  function After(direct: bool, env: Env, s: Machine, rest: seq<Byte>): (r: Machine)
    requires Inv(s)
    requires rest != [] ==> Halted(s)
    ensures Inv(r)
    decreases |rest|, 1
  {
    if rest == [] || s.message.Some? then s
    else if rest[0] == ZERO_DIGIT then Feed(direct, env, s.(state := Start), rest)
    else if rest[0] == 0 then Feed(direct, env, s.(state := Reset), rest)
    else Fail(s, JunkInArchive)
  }

  // ----- The reference machine does not see chunk boundaries -----

  /** How one action on input a relates to the same action on a + b. */
  ghost predicate Splits(b: seq<Byte>, onA: Step, onAB: Step, onB: Step) {
    if !onA.stop then onAB == Step(onA.s, onA.input + b, false)
    else if onA.input != [] then onAB == Step(onA.s, onA.input + b, true)
    else onAB == onB
  }

  lemma {:induction false} CollectSplits(s: Machine, a: seq<Byte>, b: seq<Byte>)
    requires Inv(s) && s.state == Collect
    ensures Splits(b, DoCollect(s, a), DoCollect(s, a + b), DoCollect(DoCollect(s, a).s, b))
  {
    var n := s.remains;
    if |a| >= n {
      assert (a + b)[..n] == a[..n] && (a + b)[n..] == a[n..] + b;
    } else if |a + b| >= n {
      var k := n - |a|;
      assert a[..|a|] == a && a[|a|..] == [];
      assert s.collected + (a + b)[..n] == s.collected + a + b[..k] && (a + b)[n..] == b[k..];
    } else {
      assert a[..|a|] == a && b[..|b|] == b && (a + b)[..|a + b|] == a + b;
      assert s.collected + (a + b) == s.collected + a + b;
    }
  }

  lemma {:induction false} SkipSplits(s: Machine, a: seq<Byte>, b: seq<Byte>)
    requires Inv(s) && s.state == SkipIt
    ensures DoSkip(s, a).stop ==> DoSkip(s, a).s.thisHeader <= DoSkip(s, a).s.nextHeader
    ensures DoSkip(s, a).stop ==> Splits(b, DoSkip(s, a), DoSkip(s, a + b), DoSkip(DoSkip(s, a).s, b))
    ensures !DoSkip(s, a).stop ==> DoSkip(s, a + b) == Step(DoSkip(s, a).s, DoSkip(s, a).input + b, false)
  {
  }

  lemma WritesJoin(s: Machine, a: seq<Byte>, b: seq<Byte>)
    ensures EmitWrite(EmitWrite(s, a), b) == EmitWrite(s, a + b)
  {
    var n := |s.trace|;
    var t := EmitWrite(s, a).trace;
    if n > 0 && s.trace[n - 1].Write? {
      assert s.trace[n - 1].bytes + a + b == s.trace[n - 1].bytes + (a + b);
      assert t[..|t| - 1] == s.trace[..n - 1];
    } else {
      assert t[..|t| - 1] == s.trace;
    }
  }

  lemma PiecesJoin(s: Machine, a: seq<Byte>, b: seq<Byte>)
    requires |a| < s.hdr.bodyLen
    ensures LastPiece(false, Piece(s, a), b) == LastPiece(false, s, a + b)
    ensures |a + b| < s.hdr.bodyLen ==> Piece(Piece(s, a), b) == Piece(s, a + b)
  {
    WritesJoin(s, a, b);
    assert EmitWrite(Piece(s, a), b).trace == EmitWrite(s, a + b).trace;
  }

  lemma {:induction false} CopySplits(s: Machine, a: seq<Byte>, b: seq<Byte>)
    ensures Splits(b, DoCopy(false, s, a), DoCopy(false, s, a + b), DoCopy(false, DoCopy(false, s, a).s, b))
  {
    var n := s.hdr.bodyLen;
    if |a| >= n {
      assert (a + b)[..n] == a[..n] && (a + b)[n..] == a[n..] + b;
    } else if |a + b| >= n {
      assert (a + b)[..n] == a + b[..n - |a|] && (a + b)[n..] == b[n - |a|..];
      PiecesJoin(s, a, b[..n - |a|]);
    } else {
      PiecesJoin(s, a, b);
    }
  }

  lemma {:induction false} ZerosJoin(a: seq<Byte>, b: seq<Byte>)
    ensures Zeros(a) < |a| ==> Zeros(a + b) == Zeros(a)
    ensures Zeros(a) == |a| ==> Zeros(a + b) == |a| + Zeros(b)
  {
    if a == [] {
      assert a + b == b;
    } else {
      ZerosJoin(a[1..], b);
      assert (a + b)[1..] == a[1..] + b;
    }
  }

  lemma {:induction false} ResetStops(s: Machine, a: seq<Byte>, b: seq<Byte>)
    requires Zeros(a) < |a|
    ensures DoReset(s, a + b) == Step(DoReset(s, a).s, DoReset(s, a).input + b, true) && DoReset(s, a).input != []
  {
    ZerosJoin(a, b);
    DropFront(a, b, Zeros(a));
  }

  lemma {:induction false} ResetEats(s: Machine, a: seq<Byte>)
    requires Zeros(a) == |a|
    ensures DoReset(s, a) == Step(Eat(s, |a|), [], true)
  {
  }

  lemma {:induction false} ResetOver(s: Machine, a: seq<Byte>, b: seq<Byte>)
    requires Zeros(a) == |a|
    ensures DoReset(s, a + b) == DoReset(Eat(s, |a|), b)
  {
    ZerosJoin(a, b);
    var n := Zeros(b);
    assert (a + b)[|a| + n..] == b[n..];
    assert Eat(Eat(s, |a|), n) == Eat(s, |a| + n);
  }

  lemma {:induction false} ResetSplits(s: Machine, a: seq<Byte>, b: seq<Byte>)
    requires s.state == Reset
    ensures Splits(b, DoReset(s, a), DoReset(s, a + b), DoReset(DoReset(s, a).s, b))
  {
    if Zeros(a) < |a| {
      ResetStops(s, a, b);
    } else {
      ResetEats(s, a);
      ResetOver(s, a, b);
    }
  }

  lemma DropFront(a: seq<Byte>, b: seq<Byte>, n: nat)
    requires n <= |a|
    ensures (a + b)[n..] == a[n..] + b && (n < |a| ==> a[n..] != [])
  {
  }

  lemma {:induction false} HeaderSplits(env: Env, s: Machine, a: seq<Byte>, b: seq<Byte>)
    requires Inv(s) && s.state == GotHeader
    ensures if s.collected[..6] != MAGIC then
        && |DoHeader(false, env, s, a).s.collected| == HEADER
        && Splits(b, DoHeader(false, env, s, a), DoHeader(false, env, s, a + b),
                  DoHeader(false, env, DoHeader(false, env, s, a).s, b))
      else
        && !DoHeader(false, env, s, a).stop
        && DoHeader(false, env, s, a + b) == Step(DoHeader(false, env, s, a).s, DoHeader(false, env, s, a).input + b, false)
  {
  }

  lemma {:induction false} NameSplits(env: Env, s: Machine, a: seq<Byte>, b: seq<Byte>)
    ensures !DoName(env, s, a).stop
    ensures DoName(env, s, a + b) == Step(DoName(env, s, a).s, DoName(env, s, a).input + b, false)
  {
  }

  lemma {:induction false} StartSplits(env: Env, s: Machine, a: seq<Byte>, b: seq<Byte>)
    requires Inv(s) && s.state == Start && Inv(Act(false, env, s, a).s)
    ensures Splits(b, Act(false, env, s, a), Act(false, env, s, a + b), Act(false, env, Act(false, env, s, a).s, b))
  {
  }

  lemma {:induction false} SymlinkSplits(env: Env, s: Machine, a: seq<Byte>, b: seq<Byte>)
    requires Inv(s) && s.state == GotSymlink && Inv(Act(false, env, s, a).s)
    ensures Splits(b, Act(false, env, s, a), Act(false, env, s, a + b), Act(false, env, Act(false, env, s, a).s, b))
  {
  }

  lemma {:induction false} SkipActSplits(env: Env, s: Machine, a: seq<Byte>, b: seq<Byte>)
    requires Inv(s) && s.state == SkipIt && Inv(Act(false, env, s, a).s)
    ensures Splits(b, Act(false, env, s, a), Act(false, env, s, a + b), Act(false, env, Act(false, env, s, a).s, b))
  {
    SkipSplits(s, a, b);
  }

  lemma {:induction false} BodySplits(env: Env, s: Machine, a: seq<Byte>, b: seq<Byte>)
    requires Inv(s) && Inv(Act(false, env, s, a).s) && (s.state.Collect? || s.state.CopyFile? || s.state.Reset?)
    ensures Splits(b, Act(false, env, s, a), Act(false, env, s, a + b), Act(false, env, Act(false, env, s, a).s, b))
  {
    match s.state
    case Collect => CollectSplits(s, a, b);
    case CopyFile => CopySplits(s, a, b);
    case Reset => ResetSplits(s, a, b);
  }

  lemma {:induction false} ActSplits(env: Env, s: Machine, a: seq<Byte>, b: seq<Byte>)
    requires Inv(s)
    ensures Inv(Act(false, env, s, a).s)
    ensures Splits(b, Act(false, env, s, a), Act(false, env, s, a + b), Act(false, env, Act(false, env, s, a).s, b))
  {
    ActKeeps(false, env, s, a);
    match s.state
    case GotHeader => HeaderSplits(env, s, a, b);
    case GotName => NameSplits(env, s, a, b);
    case Start => StartSplits(env, s, a, b);
    case GotSymlink => SymlinkSplits(env, s, a, b);
    case SkipIt => SkipActSplits(env, s, a, b);
    case _ => BodySplits(env, s, a, b);
  }

  lemma {:induction false} RunSplits(env: Env, s: Machine, a: seq<Byte>, b: seq<Byte>)
    requires Inv(s)
    ensures var r := Run(false, env, s, a);
      if r.1 == [] then Run(false, env, s, a + b) == Run(false, env, r.0, b)
      else Run(false, env, s, a + b) == (r.0, r.1 + b)
    decreases |a|, Rank(s.state)
  {
    ActKeeps(false, env, s, a);
    ActSplits(env, s, a, b);
    var r := Act(false, env, s, a);
    if !r.stop {
      RunSplits(env, r.s, r.input, b);
    }
  }

  /** For the reference machine, feeding a and then b is the same as feeding a + b. */
  lemma {:induction false} FeedSplits(env: Env, s: Machine, a: seq<Byte>, b: seq<Byte>)
    requires Inv(s)
    ensures Feed(false, env, Feed(false, env, s, a), b) == Feed(false, env, s, a + b)
    decreases |a|, if Hungry(s, a) then 0 else 1
  {
    if s.message.None? {
      RunSplits(env, s, a, b);
      var (s1, rest) := Run(false, env, s, a);
      if rest == [] {
        if s1.message.Some? {
          StoppedByMessage(env, s, a, b);
        }
      } else if s1.message.None? {
        assert (rest + b)[0] == rest[0];
        if Hungry(s, a) {
          HungryEats(false, env, s, a);
        }
        if rest[0] == ZERO_DIGIT {
          FeedSplits(env, s1.(state := Start), rest, b);
        } else if rest[0] == 0 {
          FeedSplits(env, s1.(state := Reset), rest, b);
        }
      }
    }
  }

  /** A message at the end of the input comes from a header without the magic number. */
  lemma {:induction false} StoppedByMessage(env: Env, s: Machine, a: seq<Byte>, b: seq<Byte>)
    requires Inv(s) && s.message.None?
    requires Run(false, env, s, a).1 == [] && Run(false, env, s, a).0.message.Some?
    ensures Run(false, env, Run(false, env, s, a).0, b) == (Run(false, env, s, a).0, b)
    decreases |a|, Rank(s.state)
  {
    ActKeeps(false, env, s, a);
    var r := Act(false, env, s, a);
    if !r.stop {
      QuietAct(env, s, a);
      StoppedByMessage(env, r.s, r.input, b);
    } else {
      LoudAct(env, s, a);
    }
  }

  lemma QuietAct(env: Env, s: Machine, a: seq<Byte>)
    requires Inv(s) && s.message.None? && !Act(false, env, s, a).stop
    ensures Act(false, env, s, a).s.message.None?
  {
  }

  lemma LoudAct(env: Env, s: Machine, a: seq<Byte>)
    requires Inv(s) && s.message.None?
    requires Act(false, env, s, a).stop && Act(false, env, s, a).input == [] && Act(false, env, s, a).s.message.Some?
    ensures Act(false, env, s, a).s.state == GotHeader && s.collected[..6] != MAGIC
    ensures Act(false, env, s, a).s == Fail(s, NoCpioMagic)
  {
  }

  // ----- The original agrees with the reference machine -----

  /** The parts of the machine that still matter are the same. */
  ghost predicate Same(s: Machine, t: Machine) {
    && s.state == t.state && s.thisHeader == t.thisHeader
    && s.names == t.names && s.trace == t.trace && s.message == t.message
    && match s.state
       case Start => true
       case Reset => true
       case Collect =>
         && s.next == t.next && s.remains == t.remains && s.collected == t.collected
         && (s.next != GotHeader ==> s.hdr == t.hdr && s.nextHeader == t.nextHeader)
       case GotHeader => s.collected == t.collected
       case GotName => s.collected == t.collected && s.hdr == t.hdr && s.nextHeader == t.nextHeader
       case GotSymlink => s.collected == t.collected && s.hdr == t.hdr && s.nextHeader == t.nextHeader
       case CopyFile => s.hdr.bodyLen == t.hdr.bodyLen && s.nextHeader == t.nextHeader && s.next == t.next
       case SkipIt => s.nextHeader == t.nextHeader && s.next == t.next
  }

  /** Both have gone on with stale data, or neither has and they are the same. */
  ghost predicate Agree(s: Machine, t: Machine) {
    s.strayed == t.strayed && (!s.strayed ==> Same(s, t))
  }

  /** The action is a read_into that finds its field whole in the input. */
  predicate ReadsDirectly(env: Env, s: Machine, x: seq<Byte>)
    requires Inv(s)
  {
    || (s.state == Start && |x| >= HEADER)
    || (s.state == GotHeader && s.collected[..6] == MAGIC
        && var h := ParseHeader(env, s.collected);
           !Skips(h) && Format(h.mode) != LNK && |x| >= NAlign(h.nameLen))
  }

  ghost predicate StepsAgree(r: Step, q: Step) {
    Agree(r.s, q.s) && r.input == q.input && r.stop == q.stop
  }

  lemma {:induction false} HeaderAgrees(env: Env, s: Machine, t: Machine, x: seq<Byte>)
    requires Inv(s) && Inv(t) && !s.strayed && Agree(s, t) && s.state == GotHeader && !ReadsDirectly(env, s, x)
    ensures StepsAgree(DoHeader(true, env, s, x), DoHeader(false, env, t, x))
  {
  }

  /** Making a file, directory or node does not look at the leftovers of an earlier collection. */
  function Leftover(s: Machine, k: nat, buf: seq<Byte>, b: seq<Byte>): Machine {
    s.(remains := k, nameBuf := buf, behind := b)
  }

  lemma {:induction false} LinkIgnores(env: Env, s: Machine, path: seq<Byte>, k: nat, buf: seq<Byte>, b: seq<Byte>)
    ensures MaybeLink(env, Leftover(s, k, buf, b), path)
         == (Leftover(MaybeLink(env, s, path).0, k, buf, b), MaybeLink(env, s, path).1)
  {
  }

  lemma {:induction false} FileIgnores(env: Env, s: Machine, path: seq<Byte>, k: nat, buf: seq<Byte>, b: seq<Byte>)
    ensures MakeFile(env, Leftover(s, k, buf, b), path) == Leftover(MakeFile(env, s, path), k, buf, b)
  {
    LinkIgnores(env, s, path, k, buf, b);
  }

  lemma {:induction false} DirIgnores(s: Machine, path: seq<Byte>, k: nat, buf: seq<Byte>, b: seq<Byte>)
    ensures MakeDir(Leftover(s, k, buf, b), path) == Leftover(MakeDir(s, path), k, buf, b)
  {
  }

  lemma {:induction false} NodeIgnores(env: Env, s: Machine, path: seq<Byte>, k: nat, buf: seq<Byte>, b: seq<Byte>)
    ensures MakeNode(env, Leftover(s, k, buf, b), path) == Leftover(MakeNode(env, s, path), k, buf, b)
  {
    LinkIgnores(env, s, path, k, buf, b);
  }

  lemma {:induction false} MakeIgnores(env: Env, s: Machine, path: seq<Byte>, k: nat, buf: seq<Byte>, b: seq<Byte>)
    ensures Make(env, Leftover(s, k, buf, b), path) == Leftover(Make(env, s, path), k, buf, b)
  {
    var f := Format(s.hdr.mode);
    if f == REG {
      FileIgnores(env, s, path, k, buf, b);
    } else if f == DIR {
      DirIgnores(s, path, k, buf, b);
    } else if f in {BLK, CHR, FIFO, SOCK} {
      NodeIgnores(env, s, path, k, buf, b);
    }
  }

  /** A string that ends in the field does not depend on what follows it. */
  lemma {:induction false} CStringEnds(f: seq<Byte>, b: seq<Byte>)
    requires 0 in f
    ensures CString(f + b) == CString(f)
  {
    if f[0] != 0 {
      assert f == [f[0]] + f[1..] && (f + b)[1..] == f[1..] + b;
      CStringEnds(f[1..], b);
    }
  }

  /** One that does not end there goes on. */
  lemma {:induction false} CStringGoesOn(f: seq<Byte>, b: seq<Byte>)
    requires 0 !in f
    ensures CString(f + b) == f + CString(b)
  {
    if f == [] {
      assert f + b == b;
    } else {
      assert (f + b)[1..] == f[1..] + b;
      CStringGoesOn(f[1..], b);
    }
  }

  lemma {:induction false} NameIgnores(env: Env, s: Machine, x: seq<Byte>, n: State, k: nat, buf: seq<Byte>, b: seq<Byte>)
    requires 0 in s.collected
    ensures DoName(env, Leftover(s, k, buf, b).(next := n), x)
         == DoName(env, s, x).(s := Leftover(DoName(env, s, x).s, k, buf, b))
  {
    CStringEnds(s.collected, s.behind);
    CStringEnds(s.collected, b);
    var path := CString(s.collected);
    var s1 := s.(state := SkipIt, next := Reset);
    MakeIgnores(env, Emit(s1, Clean(path, Format(s.hdr.mode))), path, k, buf, b);
  }

  lemma {:induction false} NameStrays(env: Env, s: Machine, x: seq<Byte>)
    ensures DoName(env, s, x).s.strayed == (s.strayed || 0 !in s.collected)
    ensures DoName(env, s, x).input == x && !DoName(env, s, x).stop
  {
  }

  lemma {:induction false} NameAgrees(env: Env, s: Machine, t: Machine, x: seq<Byte>)
    requires !s.strayed && Agree(s, t) && s.state == GotName
    ensures StepsAgree(DoName(env, s, x), DoName(env, t, x))
  {
    NameStrays(env, s, x);
    NameStrays(env, t, x);
    if 0 in s.collected {
      NameIgnores(env, s, x, t.next, t.remains, t.nameBuf, t.behind);
      assert t == Leftover(s, t.remains, t.nameBuf, t.behind).(next := t.next);
    }
  }

  lemma {:induction false} CopyAgrees(s: Machine, t: Machine, x: seq<Byte>)
    requires Inv(s) && !s.strayed && Agree(s, t) && s.state == CopyFile
    ensures StepsAgree(DoCopy(true, s, x), DoCopy(false, t, x))
  {
  }

  lemma {:induction false} ActAgrees(env: Env, s: Machine, t: Machine, x: seq<Byte>)
    requires Inv(s) && Inv(t) && !s.strayed && Agree(s, t) && !ReadsDirectly(env, s, x)
    ensures StepsAgree(Act(true, env, s, x), Act(false, env, t, x))
  {
    match s.state
    case GotHeader => HeaderAgrees(env, s, t, x);
    case GotName => NameAgrees(env, s, t, x);
    case CopyFile => CopyAgrees(s, t, x);
    case Start =>
    case Collect =>
    case SkipIt =>
    case GotSymlink =>
    case Reset =>
  }

  /** Reading a field directly is what the reference machine does in two actions. */
  lemma {:induction false} DirectAgrees(env: Env, s: Machine, t: Machine, x: seq<Byte>)
    requires Inv(s) && Inv(t) && !s.strayed && Agree(s, t) && ReadsDirectly(env, s, x)
    ensures Inv(Act(false, env, t, x).s) && !Act(true, env, s, x).stop && !Act(false, env, t, x).stop
    ensures Act(false, env, t, x).input == x
    ensures StepsAgree(Act(true, env, s, x), Act(false, env, Act(false, env, t, x).s, x))
  {
  }

  /** A machine that has gone on with stale data stays marked. */
  lemma {:induction false} RunStays(direct: bool, env: Env, s: Machine, x: seq<Byte>)
    requires Inv(s) && s.strayed
    ensures Run(direct, env, s, x).0.strayed
    decreases |x|, Rank(s.state)
  {
    ActKeeps(direct, env, s, x);
    ActStays(direct, env, s, x);
    var r := Act(direct, env, s, x);
    if !r.stop {
      RunStays(direct, env, r.s, r.input);
    }
  }

  lemma ActStays(direct: bool, env: Env, s: Machine, x: seq<Byte>)
    requires Inv(s) && s.strayed
    ensures Act(direct, env, s, x).s.strayed
  {
  }

  lemma {:induction false} RunAgrees(env: Env, s: Machine, t: Machine, x: seq<Byte>)
    requires Inv(s) && Inv(t) && Agree(s, t)
    ensures var r, q := Run(true, env, s, x), Run(false, env, t, x);
      Agree(r.0, q.0) && (!r.0.strayed ==> r.1 == q.1)
    decreases |x|, Rank(s.state)
  {
    if s.strayed {
      RunStays(true, env, s, x);
      RunStays(false, env, t, x);
    } else {
      ActKeeps(true, env, s, x);
      ActKeeps(false, env, t, x);
      var r := Act(true, env, s, x);
      var q := Act(false, env, t, x);
      if ReadsDirectly(env, s, x) {
        DirectAgrees(env, s, t, x);
        ActKeeps(false, env, q.s, x);
        RunAgrees(env, r.s, Act(false, env, q.s, x).s, r.input);
      } else {
        ActAgrees(env, s, t, x);
        if !r.stop {
          RunAgrees(env, r.s, q.s, r.input);
        }
      }
    }
  }

  lemma {:induction false} FeedStays(direct: bool, env: Env, s: Machine, x: seq<Byte>)
    requires Inv(s) && s.strayed
    ensures Feed(direct, env, s, x).strayed
    decreases |x|, if Hungry(s, x) then 0 else 1
  {
    if s.message.None? {
      RunStays(direct, env, s, x);
      var (s1, rest) := Run(direct, env, s, x);
      if Hungry(s, x) {
        HungryEats(direct, env, s, x);
      }
      if rest != [] && s1.message.None? {
        if rest[0] == ZERO_DIGIT {
          FeedStays(direct, env, s1.(state := Start), rest);
        } else if rest[0] == 0 {
          FeedStays(direct, env, s1.(state := Reset), rest);
        }
      }
    }
  }

  lemma {:induction false} AfterStays(direct: bool, env: Env, s: Machine, rest: seq<Byte>)
    requires Inv(s) && s.strayed && (rest != [] ==> Halted(s))
    ensures After(direct, env, s, rest).strayed
  {
    if rest != [] && s.message.None? {
      if rest[0] == ZERO_DIGIT {
        FeedStays(direct, env, s.(state := Start), rest);
      } else if rest[0] == 0 {
        FeedStays(direct, env, s.(state := Reset), rest);
      }
    }
  }

  lemma {:induction false} FeedAgrees(env: Env, s: Machine, t: Machine, x: seq<Byte>)
    requires Inv(s) && Inv(t) && Agree(s, t)
    ensures Agree(Feed(true, env, s, x), Feed(false, env, t, x))
    decreases |x|, if Hungry(s, x) then 0 else 1
  {
    if s.strayed {
      FeedStays(true, env, s, x);
      FeedStays(false, env, t, x);
    } else if s.message.None? {
      RunAgrees(env, s, t, x);
      var (s1, rest) := Run(true, env, s, x);
      var (t1, rest') := Run(false, env, t, x);
      if s1.strayed {
        AfterStays(true, env, s1, rest);
        AfterStays(false, env, t1, rest');
      } else if rest != [] && s1.message.None? {
        if Hungry(s, x) {
          HungryEats(true, env, s, x);
        }
        if rest[0] == ZERO_DIGIT {
          FeedAgrees(env, s1.(state := Start), t1.(state := Start), rest);
        } else if rest[0] == 0 {
          FeedAgrees(env, s1.(state := Reset), t1.(state := Reset), rest);
        }
      }
    }
  }

  // ----- The archive in chunks -----

  /** Before the first byte. */
  ghost predicate Booted(s: Machine) {
    && s.state == Start && s.next == Start && s.thisHeader == 0 && s.message.None? && s.trace == [] && s.names == map[]
    && !s.strayed
  }

  function FeedAll(direct: bool, env: Env, s: Machine, chunks: seq<seq<Byte>>): (r: Machine)
    requires Inv(s)
    ensures Inv(r)
    decreases |chunks|
  {
    if chunks == [] then s else FeedAll(direct, env, Feed(direct, env, s, chunks[0]), chunks[1..])
  }

  function Join(chunks: seq<seq<Byte>>): seq<Byte> {
    if chunks == [] then [] else chunks[0] + Join(chunks[1..])
  }

  lemma {:induction false} ChunksAgree(env: Env, s: Machine, t: Machine, chunks: seq<seq<Byte>>)
    requires Inv(s) && Inv(t) && Agree(s, t)
    ensures Agree(FeedAll(true, env, s, chunks), FeedAll(false, env, t, chunks))
    decreases |chunks|
  {
    if chunks != [] {
      FeedAgrees(env, s, t, chunks[0]);
      ChunksAgree(env, Feed(true, env, s, chunks[0]), Feed(false, env, t, chunks[0]), chunks[1..]);
    }
  }

  lemma {:induction false} ChunksJoin(env: Env, s: Machine, chunks: seq<seq<Byte>>)
    requires Inv(s) && chunks != []
    ensures FeedAll(false, env, s, chunks) == Feed(false, env, s, Join(chunks))
    decreases |chunks|
  {
    if |chunks| == 1 {
      assert Join(chunks) == chunks[0];
      assert chunks[1..] == [];
    } else {
      ChunksJoin(env, Feed(false, env, s, chunks[0]), chunks[1..]);
      FeedSplits(env, s, chunks[0], Join(chunks[1..]));
    }
  }

  /** However an archive is cut into chunks, the unpacker ends in the same state, having made the
      same files with the same contents, links, directories, nodes and error, as when it is fed the
      archive whole; unless an entry was skipped or a name was unterminated, which shows in both
      runs or in neither. */
  lemma ChunkingIsInvisible(env: Env, s: Machine, chunks: seq<seq<Byte>>)
    requires Inv(s) && chunks != []
    ensures Agree(FeedAll(true, env, s, chunks), Feed(true, env, s, Join(chunks)))
  {
    ChunksAgree(env, s, s, chunks);
    ChunksJoin(env, s, chunks);
    FeedAgrees(env, s, s, Join(chunks));
  }

  /** do_header with no further input. */
  lemma {:induction false} HeaderAct(env: Env, s: Machine)
    requires Inv(s) && s.state == GotHeader && s.collected[..6] == MAGIC
    ensures var r := DoHeader(true, env, s, []); var p := ParseHeader(env, s.collected);
      && !r.stop && r.input == []
      && (Skips(p) ==> r.s.state == SkipIt && r.s.next == s.next && r.s.strayed && r.s.thisHeader < r.s.nextHeader)
      && (!Skips(p) ==> r.s.state == Collect && r.s.strayed == s.strayed && r.s.remains > 0)
  {
  }

  /** Without input the machine waits where it stands. */
  lemma {:induction false} Waits(env: Env, s: Machine)
    requires Inv(s) && ((s.state == SkipIt && s.thisHeader < s.nextHeader) || (s.state == Collect && s.remains > 0))
    ensures var r := Run(true, env, s, []);
      r.1 == [] && r.0.state == s.state && r.0.next == s.next && r.0.strayed == s.strayed
  {
  }

  /** The machine that has just got a header, with no further input. */
  lemma {:induction false} HeaderAlone(env: Env, s: Machine)
    requires Inv(s) && s.state == GotHeader && s.collected[..6] == MAGIC
    ensures var r := Run(true, env, s, []); var p := ParseHeader(env, s.collected);
      && r.1 == []
      && (Skips(p) ==> r.0.state == SkipIt && r.0.next == s.next && r.0.strayed)
      && (!Skips(p) ==> r.0.state == Collect && r.0.strayed == s.strayed)
  {
    HeaderAct(env, s);
    HeaderKeeps(true, env, s, []);
    var r := DoHeader(true, env, s, []);
    Waits(env, r.s);
    assert Run(true, env, s, []) == Run(true, env, r.s, []);
  }

  /** The machine after a header that was read whole, with no further input. */
  lemma {:induction false} WholeHeader(env: Env, s: Machine, h: seq<Byte>)
    requires Inv(s) && s.state == Start && |h| == HEADER && h[..6] == MAGIC
    ensures var r := Run(true, env, s, h); var p := ParseHeader(env, h);
      && r.1 == []
      && (Skips(p) ==> r.0.state == SkipIt && r.0.next == s.next && r.0.strayed)
      && (!Skips(p) ==> r.0.state == Collect && r.0.strayed == s.strayed)
  {
    var r := Act(true, env, s, h);
    assert h[..HEADER] == h && h[HEADER..] == [];
    assert !r.stop && r.s.state == GotHeader && r.s.collected == h && r.input == [] && r.s.next == s.next;
    ActKeeps(true, env, s, h);
    HeaderAlone(env, r.s);
  }

  /** The machine after the same header arrived in two pieces. */
  lemma {:induction false} CutHeader(env: Env, s: Machine, h: seq<Byte>, n: nat)
    requires Inv(s) && s.state == Start && |h| == HEADER && h[..6] == MAGIC && n < HEADER
    ensures var a := Run(true, env, s, h[..n]).0; var r := Run(true, env, a, h[n..]);
      Skips(ParseHeader(env, h)) ==> r.0.state == SkipIt && r.0.next == GotHeader
  {
    CutStart(env, s, h[..n]);
    var a, x := Run(true, env, s, h[..n]).0, h[n..];
    var r := Act(true, env, a, x);
    assert x[..HEADER - n] == x && x[HEADER - n..] == [] && h[..n] + x == h;
    assert !r.stop && r.s.state == GotHeader && r.s.collected == h && r.input == [] && r.s.next == GotHeader;
    ActKeeps(true, env, a, x);
    HeaderAlone(env, r.s);
  }

  lemma {:induction false} CutStart(env: Env, s: Machine, x: seq<Byte>)
    requires Inv(s) && s.state == Start && |x| < HEADER
    ensures var a := Run(true, env, s, x).0;
      Inv(a) && a.state == Collect && a.collected == x && a.remains == HEADER - |x| && a.next == GotHeader
  {
  }

  lemma {:induction false} CutAgrees(env: Env, s: Machine, h: seq<Byte>, n: nat)
    requires Inv(s) && s.state == Start && |h| == HEADER && n < HEADER
    ensures Agree(Run(true, env, s, h).0, Run(true, env, Run(true, env, s, h[..n]).0, h[n..]).0)
  {
    RunAgrees(env, s, s, h);
    RunAgrees(env, s, s, h[..n]);
    CutConsumed(env, s, h, n);
    RunAgrees(env, Run(true, env, s, h[..n]).0, Run(false, env, s, h[..n]).0, h[n..]);
    RunSplits(env, s, h[..n], h[n..]);
    assert h[..n] + h[n..] == h;
  }

  /** The exclusion of skipped entries is exact: a header cut in two leaves the machine as a header
      read whole does if and only if do_header does not skip the entry. */
  lemma {:induction false} CutIsInvisibleUnlessSkipped(env: Env, s: Machine, h: seq<Byte>, n: nat)
    requires Inv(s) && s.state == Start && !s.strayed && s.next != GotHeader
    requires |h| == HEADER && h[..6] == MAGIC && n < HEADER
    ensures Same(Run(true, env, s, h).0, Run(true, env, Run(true, env, s, h[..n]).0, h[n..]).0)
       <==> !Skips(ParseHeader(env, h))
  {
    WholeHeader(env, s, h);
    if Skips(ParseHeader(env, h)) {
      CutHeader(env, s, h, n);
    } else {
      CutAgrees(env, s, h, n);
    }
  }

  /** A header of all zero digits, with an empty name, is such an entry: any cut in it shows. */
  lemma {:induction false} CutShows(env: Env, s: Machine, n: nat)
    requires env.hex(seq(8, i => ZERO_DIGIT)) == 0
    requires Inv(s) && s.state == Start && !s.strayed && s.next != GotHeader && n < HEADER
    ensures var h := MAGIC + seq(HEADER - 6, i => ZERO_DIGIT);
      !Same(Run(true, env, s, h).0, Run(true, env, Run(true, env, s, h[..n]).0, h[n..]).0)
  {
    var h := MAGIC + seq(HEADER - 6, i => ZERO_DIGIT);
    assert h[..6] == MAGIC && h[94..102] == seq(8, i => ZERO_DIGIT);
    CutIsInvisibleUnlessSkipped(env, s, h, n);
  }

  lemma {:induction false} CutConsumed(env: Env, s: Machine, h: seq<Byte>, n: nat)
    requires Inv(s) && s.state == Start && |h| == HEADER && n < HEADER
    ensures Run(false, env, s, h[..n]).1 == []
  {
  }

  // ----- A cut skipped header swallows the rest of the archive -----

  /** The machine goes round between do_header and do_skip with the same header. */
  ghost predicate Looping(env: Env, s: Machine) {
    && (s.state == GotHeader || s.state == SkipIt) && s.next == GotHeader
    && |s.collected| == HEADER && s.collected[..6] == MAGIC && Skips(ParseHeader(env, s.collected))
  }

  lemma {:induction false} LoopStep(env: Env, s: Machine, x: seq<Byte>)
    requires Inv(s) && Looping(env, s)
    ensures var r := Act(true, env, s, x);
      && Looping(env, r.s) && r.s.trace == s.trace && r.s.message == s.message && (r.stop ==> r.input == [])
  {
  }

  /** Whatever follows is skipped: nothing more is made, and nothing is reported. */
  lemma {:induction false} RunSwallows(env: Env, s: Machine, x: seq<Byte>)
    requires Inv(s) && Looping(env, s)
    ensures var r := Run(true, env, s, x);
      r.1 == [] && Looping(env, r.0) && r.0.trace == s.trace && r.0.message == s.message
    decreases |x|, Rank(s.state)
  {
    ActKeeps(true, env, s, x);
    LoopStep(env, s, x);
    var r := Act(true, env, s, x);
    if !r.stop {
      RunSwallows(env, r.s, r.input);
    }
  }

  lemma {:induction false} FeedSwallows(env: Env, s: Machine, x: seq<Byte>)
    requires Inv(s) && Looping(env, s) && s.message.None?
    ensures var t := Feed(true, env, s, x); Looping(env, t) && t.trace == s.trace && t.message.None?
  {
    RunSwallows(env, s, x);
  }

  lemma {:induction false} ChunksSwallowed(env: Env, s: Machine, chunks: seq<seq<Byte>>)
    requires Inv(s) && Looping(env, s) && s.message.None?
    ensures FeedAll(true, env, s, chunks).trace == s.trace && FeedAll(true, env, s, chunks).message.None?
    decreases |chunks|
  {
    if chunks != [] {
      FeedSwallows(env, s, chunks[0]);
      ChunksSwallowed(env, Feed(true, env, s, chunks[0]), chunks[1..]);
    }
  }

  lemma {:induction false} CutLoops(env: Env, s: Machine, h: seq<Byte>, n: nat, y: seq<Byte>)
    requires Inv(s) && s.state == Start && s.message.None?
    requires |h| == HEADER && h[..6] == MAGIC && n < HEADER && Skips(ParseHeader(env, h))
    ensures var a := Feed(true, env, s, h[..n]); var t := Feed(true, env, a, h[n..] + y);
      Looping(env, t) && t.trace == s.trace && t.message.None?
  {
    CutStart(env, s, h[..n]);
    CutWaits(env, s, h[..n]);
    var a, x := Feed(true, env, s, h[..n]), h[n..] + y;
    var r := Act(true, env, a, x);
    assert x[..HEADER - n] == h[n..] && x[HEADER - n..] == y && h[..n] + h[n..] == h;
    assert !r.stop && r.s.state == GotHeader && r.s.collected == h && r.input == y && r.s.next == GotHeader;
    ActKeeps(true, env, a, x);
    RunSwallows(env, r.s, y);
    assert Run(true, env, a, x) == Run(true, env, r.s, y);
  }

  lemma {:induction false} CutWaits(env: Env, s: Machine, x: seq<Byte>)
    requires Inv(s) && s.state == Start && |x| < HEADER && s.message.None?
    ensures Run(true, env, s, x).1 == [] && Feed(true, env, s, x) == Run(true, env, s, x).0
    ensures Run(true, env, s, x).0.trace == s.trace && Run(true, env, s, x).0.message.None?
  {
  }

  /** A header that do_header skips, cut anywhere: nothing of the rest of the archive is unpacked. */
  lemma {:induction false} CutSwallows(env: Env, s: Machine, h: seq<Byte>, n: nat, y: seq<Byte>, chunks: seq<seq<Byte>>)
    requires Inv(s) && s.state == Start && s.message.None?
    requires |h| == HEADER && h[..6] == MAGIC && n < HEADER && Skips(ParseHeader(env, h))
    ensures FeedAll(true, env, s, [h[..n], h[n..] + y] + chunks).trace == s.trace
  {
    CutLoops(env, s, h, n, y);
    var all := [h[..n], h[n..] + y] + chunks;
    assert all[1..] == [h[n..] + y] + chunks && all[1..][1..] == chunks;
    ChunksSwallowed(env, Feed(true, env, Feed(true, env, s, h[..n]), h[n..] + y), chunks);
  }

  // ----- What a directory entry does -----

  lemma {:induction false} RunStep(env: Env, s: Machine, x: seq<Byte>)
    requires Inv(s) && !Act(true, env, s, x).stop
    ensures Inv(Act(true, env, s, x).s) && Run(true, env, s, x) == Run(true, env, Act(true, env, s, x).s, Act(true, env, s, x).input)
  {
    ActKeeps(true, env, s, x);
  }

  /** The header of a directory. */
  ghost predicate DirHeader(env: Env, h: seq<Byte>) {
    && |h| == HEADER && h[..6] == MAGIC
    && var p := ParseHeader(env, h); !Skips(p) && Format(p.mode) == DIR
  }

  function DirOps(p: Header, path: seq<Byte>): seq<Op> {
    [Clean(path, DIR), Mkdir(path, p.mode), Own(path, p.uid, p.gid, p.mode)]
  }

  /** do_name for a directory, and the empty skip that follows it. */
  lemma {:induction false} DirMade(env: Env, s: Machine, y: seq<Byte>) returns (t: Machine)
    requires Inv(s) && s.state == GotName && Format(s.hdr.mode) == DIR && s.thisHeader == s.nextHeader
    requires CString(s.collected + s.behind) != TRAILER
    ensures Inv(t) && t.state == Reset && t.thisHeader == s.thisHeader && t.message == s.message
    ensures t.trace == s.trace + DirOps(s.hdr, CString(s.collected + s.behind))
    ensures Run(true, env, s, y) == Run(true, env, t, y)
  {
    var a := Act(true, env, s, y);
    assert !a.stop && a.input == y && a.s.state == SkipIt && a.s.next == Reset;
    RunStep(env, s, y);
    var b := Act(true, env, a.s, y);
    assert !b.stop && b.input == y[0..] == y;
    RunStep(env, a.s, y);
    t := b.s;
    var path := CString(s.collected + s.behind);
    assert a.s.trace == s.trace + [Clean(path, DIR)] + [Mkdir(path, s.hdr.mode)] + [Own(path, s.hdr.uid, s.hdr.gid, s.hdr.mode)];
  }

  /** Entries begin at multiples of four, and the end of a directory's name is one. */
  lemma EntryEnds(at: nat, h: Header)
    ensures NextHeader(at, h) % 4 == 0
    ensures at % 4 == 2 && h.bodyLen == 0 ==> NextHeader(at, h) == at + NAlign(h.nameLen)
  {
    assert NAlign(h.nameLen) % 4 == 2;
  }

  lemma BehindHeader(at: nat)
    requires at % 4 == 0
    ensures (at + HEADER) % 4 == 2
  {
  }

  /** do_header for a directory. */
  lemma {:induction false} DirParsed(env: Env, s: Machine, x: seq<Byte>)
    requires Inv(s) && s.state == GotHeader && DirHeader(env, s.collected) && s.thisHeader % 4 == 2
    ensures var p := ParseHeader(env, s.collected); var end := s.thisHeader + NAlign(p.nameLen);
      end % 4 == 0 && Act(true, env, s, x) == ReadInto(true, s.(hdr := p, nextHeader := end), x, NAlign(p.nameLen), GotName)
  {
    EntryEnds(s.thisHeader, ParseHeader(env, s.collected));
  }

  /** From the header of a directory to its name, with the name field whole in the input. */
  lemma {:induction false} DirRead(env: Env, s: Machine, f: seq<Byte>, y: seq<Byte>) returns (t: Machine)
    requires Inv(s) && s.state == GotHeader && DirHeader(env, s.collected) && s.thisHeader % 4 == 2
    requires |f| == NAlign(ParseHeader(env, s.collected).nameLen)
    ensures Inv(t) && t.state == GotName && t.collected == f && t.behind == y && t.hdr == ParseHeader(env, s.collected)
    ensures t.trace == s.trace && t.message == s.message && t.thisHeader == t.nextHeader && t.thisHeader % 4 == 0
    ensures Run(true, env, s, f + y) == Run(true, env, t, y)
  {
    DirParsed(env, s, f + y);
    assert (f + y)[..|f|] == f && (f + y)[|f|..] == y;
    RunStep(env, s, f + y);
    t := Act(true, env, s, f + y).s;
    assert t.thisHeader == s.thisHeader + NAlign(ParseHeader(env, s.collected).nameLen);
  }

  lemma {:induction false} EntryRead(env: Env, s: Machine, h: seq<Byte>, f: seq<Byte>, y: seq<Byte>) returns (t: Machine)
    requires Inv(s) && s.state == Start && DirHeader(env, h) && s.thisHeader % 4 == 0
    requires |f| == NAlign(ParseHeader(env, h).nameLen)
    ensures Inv(t) && t.state == GotName && t.collected == f && t.behind == y && t.hdr == ParseHeader(env, h)
    ensures t.trace == s.trace && t.message == s.message && t.thisHeader == t.nextHeader && t.thisHeader % 4 == 0
    ensures Run(true, env, s, h + (f + y)) == Run(true, env, t, y)
  {
    var g := StartReads(env, s, h, f + y);
    BehindHeader(s.thisHeader);
    t := DirRead(env, g, f, y);
  }

  /** An entry for a directory, found whole in the input. */
  lemma {:induction false} DirEntry(env: Env, s: Machine, h: seq<Byte>, f: seq<Byte>, y: seq<Byte>) returns (u: Machine)
    requires Inv(s) && s.state == Start && DirHeader(env, h) && s.thisHeader % 4 == 0
    requires |f| == NAlign(ParseHeader(env, h).nameLen) && CString(f + y) != TRAILER
    ensures Inv(u) && u.state == Reset && u.thisHeader % 4 == 0 && u.message == s.message
    ensures u.trace == s.trace + DirOps(ParseHeader(env, h), CString(f + y))
    ensures Run(true, env, s, h + (f + y)) == Run(true, env, u, y)
  {
    var t := EntryRead(env, s, h, f, y);
    u := DirMade(env, t, y);
  }

  /** The same with the name field cut after n bytes: the first piece is collected. */
  lemma {:induction false} DirCut(env: Env, s: Machine, f: seq<Byte>, n: nat) returns (c: Machine)
    requires Inv(s) && s.state == GotHeader && DirHeader(env, s.collected) && s.thisHeader % 4 == 2
    requires |f| == NAlign(ParseHeader(env, s.collected).nameLen) && n < |f|
    ensures Inv(c) && Run(true, env, s, f[..n]) == (c, []) && c.trace == s.trace && c.message == s.message
    ensures c.state == Collect && c.next == GotName && c.collected == f[..n] && c.remains == |f| - n && c.nameBuf == s.nameBuf
    ensures c.hdr == ParseHeader(env, s.collected) && c.thisHeader + |f| - n == c.nextHeader && c.nextHeader % 4 == 0
  {
    DirParsed(env, s, f[..n]);
    RunStep(env, s, f[..n]);
    c := PieceTaken(env, Act(true, env, s, f[..n]).s, f[..n]);
  }

  /** A piece of a field is collected, and the machine waits for more. */
  lemma {:induction false} PieceTaken(env: Env, s: Machine, x: seq<Byte>) returns (c: Machine)
    requires Inv(s) && s.state == Collect && |x| < s.remains
    ensures Inv(c) && Run(true, env, s, x) == (c, [])
    ensures c == s.(thisHeader := s.thisHeader + |x|, collected := s.collected + x, remains := s.remains - |x|)
  {
    ActKeeps(true, env, s, x);
    assert x[..|x|] == x && x[|x|..] == [];
    c := Act(true, env, s, x).s;
  }

  /** And then the second. */
  lemma {:induction false} NameCollected(env: Env, c: Machine, f: seq<Byte>, n: nat, y: seq<Byte>) returns (t: Machine)
    requires Inv(c) && c.state == Collect && c.next == GotName && n < |f| && c.collected == f[..n] && c.remains == |f| - n
    ensures Inv(t) && t.state == GotName && t.collected == f && t.behind == Rest(c.nameBuf, |f|) && t.hdr == c.hdr
    ensures t.trace == c.trace && t.message == c.message && t.thisHeader == c.thisHeader + |f| - n && t.nextHeader == c.nextHeader
    ensures Run(true, env, c, f[n..] + y) == Run(true, env, t, y)
  {
    var d := Act(true, env, c, f[n..] + y);
    assert (f[n..] + y)[..|f| - n] == f[n..] && (f[n..] + y)[|f| - n..] == y && f[..n] + f[n..] == f;
    RunStep(env, c, f[n..] + y);
    t := d.s;
  }

  lemma {:induction false} StartReads(env: Env, s: Machine, h: seq<Byte>, z: seq<Byte>) returns (g: Machine)
    requires Inv(s) && s.state == Start && |h| == HEADER
    ensures Inv(g) && g.state == GotHeader && g.collected == h && g.next == s.next && g.nameBuf == s.nameBuf
    ensures g.trace == s.trace && g.message == s.message && g.thisHeader == s.thisHeader + HEADER
    ensures g.names == s.names && g.strayed == s.strayed
    ensures Run(true, env, s, h + z) == Run(true, env, g, z)
  {
    assert (h + z)[..HEADER] == h && (h + z)[HEADER..] == z;
    RunStep(env, s, h + z);
    g := Act(true, env, s, h + z).s;
  }

  /** The start of the next entry is left for later. */
  lemma {:induction false} NextWaits(env: Env, s: Machine, x: seq<Byte>, t: Machine, y: seq<Byte>)
    requires Inv(s) && Inv(t) && Run(true, env, s, x) == Run(true, env, t, y) && s.message.None?
    requires t.state == Reset && t.message.None? && t.thisHeader % 4 == 0 && 0 < |y| < HEADER && y[0] == ZERO_DIGIT
    ensures Feed(true, env, s, x).trace == t.trace
  {
    assert Zeros(y) == 0 && y[0..] == y;
    assert Run(true, env, t, y) == (t, y);
    CutWaits(env, t.(state := Start), y);
    assert After(true, env, t, y) == Feed(true, env, t.(state := Start), y);
  }

  // ----- A name without a terminating zero -----

  /** do_name makes the same with b behind the name field as with b'. */
  predicate SameName(env: Env, g: Machine, x: seq<Byte>, b: seq<Byte>, b': seq<Byte>) {
    DoName(env, g.(behind := b), x).s.trace == DoName(env, g.(behind := b'), x).s.trace
  }

  lemma {:induction false} MakeExtends(env: Env, s: Machine, path: seq<Byte>)
    ensures s.trace <= Make(env, s, path).trace
  {
  }

  lemma {:induction false} NameCleans(env: Env, g: Machine, x: seq<Byte>)
    ensures var path := CString(g.collected + g.behind); var t := DoName(env, g, x).s.trace;
      if path == TRAILER then t == g.trace
      else |g.trace| < |t| && t[|g.trace|] == Clean(path, Format(g.hdr.mode))
  {
    var path := CString(g.collected + g.behind);
    var s := g.(state := SkipIt, next := Reset, strayed := g.strayed || 0 !in g.collected);
    MakeExtends(env, Emit(s, Clean(path, Format(s.hdr.mode))), path);
  }

  /** What do_name makes does not depend on the bytes behind the name field, and so not on where the
      archive was cut, if and only if there is a zero in the field. */
  lemma {:induction false} NameExact(env: Env, g: Machine, x: seq<Byte>)
    ensures (forall b, b' :: SameName(env, g, x, b, b')) <==> 0 in g.collected
  {
    if 0 in g.collected {
      forall b, b' ensures SameName(env, g, x, b, b') {
        NameIgnores(env, g, x, g.next, g.remains, g.nameBuf, b);
        NameIgnores(env, g, x, g.next, g.remains, g.nameBuf, b');
        assert Leftover(g, g.remains, g.nameBuf, b).(next := g.next) == g.(behind := b);
        assert Leftover(g, g.remains, g.nameBuf, b').(next := g.next) == g.(behind := b');
      }
    } else {
      var one: seq<Byte> := [1];
      CStringGoesOn(g.collected, []);
      CStringGoesOn(g.collected, one);
      NameCleans(env, g.(behind := []), x);
      NameCleans(env, g.(behind := one), x);
      assert CString(one) == one;
      assert !SameName(env, g, x, [], one);
    }
  }

  /** A directory whose name has no zero, with the next header behind it: whole, the name runs on into
      that header. */
  lemma {:induction false} UnterminatedWhole(env: Env, s: Machine, h: seq<Byte>, f: seq<Byte>)
    requires Inv(s) && Booted(s) && DirHeader(env, h) && |f| == NAlign(ParseHeader(env, h).nameLen) && 0 !in f
    requires f + [ZERO_DIGIT] != TRAILER
    ensures Feed(true, env, s, h + (f + [ZERO_DIGIT, 0])).trace == DirOps(ParseHeader(env, h), f + [ZERO_DIGIT])
  {
    var y: seq<Byte> := [ZERO_DIGIT, 0];
    CStringGoesOn(f, y);
    assert CString(y) == [ZERO_DIGIT] by {
      assert y[1..] == [0];
    }
    var u := DirEntry(env, s, h, f, y);
    NextWaits(env, s, h + (f + y), u, y);
  }

  /** Cut in the name, it runs on into what name_buf held before. */
  lemma {:induction false} NameCutShort(env: Env, s: Machine, h: seq<Byte>, f: seq<Byte>, n: nat) returns (c: Machine)
    requires Inv(s) && Booted(s) && DirHeader(env, h) && |f| == NAlign(ParseHeader(env, h).nameLen) && n < |f|
    ensures Inv(c) && Feed(true, env, s, h + f[..n]) == c && c.trace == [] && c.message.None?
    ensures c.state == Collect && c.next == GotName && c.collected == f[..n] && c.remains == |f| - n && c.nameBuf == s.nameBuf
    ensures c.hdr == ParseHeader(env, h) && c.thisHeader + |f| - n == c.nextHeader && c.nextHeader % 4 == 0
  {
    var g := StartReads(env, s, h, f[..n]);
    BehindHeader(s.thisHeader);
    c := DirCut(env, g, f, n);
  }

  lemma {:induction false} CutMade(env: Env, c: Machine, f: seq<Byte>, n: nat, y: seq<Byte>) returns (u: Machine)
    requires Inv(c) && c.state == Collect && c.next == GotName && n < |f| && c.collected == f[..n] && c.remains == |f| - n
    requires Format(c.hdr.mode) == DIR && c.thisHeader + |f| - n == c.nextHeader && c.nextHeader % 4 == 0
    requires CString(f + Rest(c.nameBuf, |f|)) != TRAILER
    ensures Inv(u) && u.state == Reset && u.thisHeader % 4 == 0 && u.message == c.message
    ensures u.trace == c.trace + DirOps(c.hdr, CString(f + Rest(c.nameBuf, |f|)))
    ensures Run(true, env, c, f[n..] + y) == Run(true, env, u, y)
  {
    var t := NameCollected(env, c, f, n, y);
    u := DirMade(env, t, y);
  }

  lemma {:induction false} UnterminatedCut(env: Env, s: Machine, h: seq<Byte>, f: seq<Byte>, n: nat)
    requires Inv(s) && Booted(s) && DirHeader(env, h) && |f| == NAlign(ParseHeader(env, h).nameLen) && 0 !in f
    requires n < |f| < |s.nameBuf| && s.nameBuf[|f|] == 0 && f != TRAILER
    ensures FeedAll(true, env, s, [h + f[..n], f[n..] + [ZERO_DIGIT, 0]]).trace == DirOps(ParseHeader(env, h), f)
  {
    var y: seq<Byte> := [ZERO_DIGIT, 0];
    var old_ := Rest(s.nameBuf, |f|);
    CStringGoesOn(f, old_);
    assert CString(old_) == [] && f + [] == f;
    var c := NameCutShort(env, s, h, f, n);
    var u := CutMade(env, c, f, n, y);
    NextWaits(env, c, f[n..] + y, u, y);
    FeedTwo(env, s, h + f[..n], f[n..] + y);
    assert [] + DirOps(ParseHeader(env, h), f) == DirOps(ParseHeader(env, h), f);
  }

  lemma {:induction false} FeedTwo(env: Env, s: Machine, a: seq<Byte>, b: seq<Byte>)
    requires Inv(s)
    ensures FeedAll(true, env, s, [a, b]) == Feed(true, env, Feed(true, env, s, a), b)
  {
    assert [a, b][1..] == [b] && [b][1..] == [];
    assert FeedAll(true, env, Feed(true, env, s, a), [b]) == FeedAll(true, env, Feed(true, env, Feed(true, env, s, a), b), []);
  }

  /** So the two leave different directories behind. */
  lemma {:induction false} UnterminatedShows(env: Env, s: Machine, h: seq<Byte>, f: seq<Byte>, n: nat)
    requires Inv(s) && Booted(s) && DirHeader(env, h) && |f| == NAlign(ParseHeader(env, h).nameLen) && 0 !in f
    requires n < |f| < |s.nameBuf| && s.nameBuf[|f|] == 0 && f != TRAILER && f + [ZERO_DIGIT] != TRAILER
    ensures Join([h + f[..n], f[n..] + [ZERO_DIGIT, 0]]) == h + (f + [ZERO_DIGIT, 0])
    ensures FeedAll(true, env, s, [h + f[..n], f[n..] + [ZERO_DIGIT, 0]]).trace
         != Feed(true, env, s, h + (f + [ZERO_DIGIT, 0])).trace
  {
    UnterminatedWhole(env, s, h, f);
    UnterminatedCut(env, s, h, f, n);
    var p := ParseHeader(env, h);
    assert DirOps(p, f)[0] != DirOps(p, f + [ZERO_DIGIT])[0];
    CutJoins(h, f, n, [ZERO_DIGIT, 0]);
  }

  lemma {:induction false} CutJoins(h: seq<Byte>, f: seq<Byte>, n: nat, y: seq<Byte>)
    requires n < |f|
    ensures Join([h + f[..n], f[n..] + y]) == h + (f + y)
  {
    JoinTwo(h + f[..n], f[n..] + y);
    assert f[..n] + f[n..] == f;
    assert h + f[..n] + (f[n..] + y) == h + (f[..n] + f[n..] + y);
  }

  lemma JoinTwo(a: seq<Byte>, b: seq<Byte>)
    ensures Join([a, b]) == a + b
  {
    assert [a, b][1..] == [b] && [b][1..] == [];
    assert Join([b]) == b + [] == b;
  }

  // ----- A skipped entry before a directory -----

  /** Read whole, the skipped entry is passed over and the directory made. */
  lemma {:induction false} SkippedWhole(env: Env, s: Machine, h0: seq<Byte>, pad: seq<Byte>, h: seq<Byte>, f: seq<Byte>)
    requires Inv(s) && Booted(s) && |h0| == HEADER && h0[..6] == MAGIC && Skips(ParseHeader(env, h0))
    requires |pad| == NextHeader(HEADER, ParseHeader(env, h0)) - HEADER
    requires DirHeader(env, h) && |f| == NAlign(ParseHeader(env, h).nameLen) && 0 in f && CString(f) != TRAILER
    ensures Feed(true, env, s, h0 + (pad + (h + (f + [ZERO_DIGIT])))).trace == DirOps(ParseHeader(env, h), CString(f))
  {
    var y: seq<Byte> := [ZERO_DIGIT];
    var v := SkipRead(env, s, h0, pad, h + (f + y));
    CStringEnds(f, y);
    var u := DirEntry(env, v, h, f, y);
    NextWaits(env, s, h0 + (pad + (h + (f + y))), u, y);
  }

  lemma {:induction false} SkipRead(env: Env, s: Machine, h0: seq<Byte>, pad: seq<Byte>, z: seq<Byte>) returns (t: Machine)
    requires Inv(s) && Booted(s) && |h0| == HEADER && h0[..6] == MAGIC && Skips(ParseHeader(env, h0))
    requires |pad| == NextHeader(HEADER, ParseHeader(env, h0)) - HEADER
    ensures Inv(t) && t.state == Start && t.trace == [] && t.message.None? && t.thisHeader % 4 == 0
    ensures Run(true, env, s, h0 + (pad + z)) == Run(true, env, t, z)
  {
    var g := StartReads(env, s, h0, pad + z);
    t := SkipPassed(env, g, pad, z);
  }

  lemma {:induction false} SkipPassed(env: Env, s: Machine, pad: seq<Byte>, z: seq<Byte>) returns (t: Machine)
    requires Inv(s) && s.state == GotHeader && s.next == Start && s.collected[..6] == MAGIC && Skips(ParseHeader(env, s.collected))
    requires |pad| == NextHeader(s.thisHeader, ParseHeader(env, s.collected)) - s.thisHeader
    ensures Inv(t) && t.state == Start && t.next == Start && t.trace == s.trace && t.message == s.message && t.thisHeader % 4 == 0
    ensures Run(true, env, s, pad + z) == Run(true, env, t, z)
  {
    EntryEnds(s.thisHeader, ParseHeader(env, s.collected));
    var a := Act(true, env, s, pad + z);
    assert !a.stop && a.input == pad + z && a.s.state == SkipIt && a.s.next == Start && a.s.nextHeader == s.thisHeader + |pad|;
    RunStep(env, s, pad + z);
    t := Skipped(env, a.s, pad, z);
  }

  lemma {:induction false} Skipped(env: Env, s: Machine, pad: seq<Byte>, z: seq<Byte>) returns (t: Machine)
    requires Inv(s) && s.state == SkipIt && s.nextHeader == s.thisHeader + |pad|
    ensures Inv(t) && t == s.(thisHeader := s.nextHeader, state := s.next)
    ensures Run(true, env, s, pad + z) == Run(true, env, t, z)
  {
    assert (pad + z)[|pad|..] == z;
    RunStep(env, s, pad + z);
    t := Act(true, env, s, pad + z).s;
  }

  /** Cut in its header, it swallows the directory: the same archive, and nothing is made. */
  lemma {:induction false} SkippedShows(env: Env, s: Machine, h0: seq<Byte>, n: nat, pad: seq<Byte>, h: seq<Byte>, f: seq<Byte>)
    requires Inv(s) && Booted(s) && |h0| == HEADER && h0[..6] == MAGIC && Skips(ParseHeader(env, h0)) && n < HEADER
    requires |pad| == NextHeader(HEADER, ParseHeader(env, h0)) - HEADER
    requires DirHeader(env, h) && |f| == NAlign(ParseHeader(env, h).nameLen) && 0 in f && CString(f) != TRAILER
    ensures var z := pad + (h + (f + [ZERO_DIGIT]));
      && Join([h0[..n], h0[n..] + z]) == h0 + z
      && FeedAll(true, env, s, [h0[..n], h0[n..] + z]).trace == []
      && Feed(true, env, s, h0 + z).trace != []
  {
    var z := pad + (h + (f + [ZERO_DIGIT]));
    SkippedWhole(env, s, h0, pad, h, f);
    CutSwallows(env, s, h0, n, z, []);
    assert [h0[..n], h0[n..] + z] + [] == [h0[..n], h0[n..] + z];
    JoinTwo(h0[..n], h0[n..] + z);
    assert h0[..n] + (h0[n..] + z) == h0 + z by {
      assert h0[..n] + h0[n..] == h0;
    }
  }

  // ----- Two small archives -----

  const ZEROS: seq<Byte> := [48, 48, 48, 48, 48, 48, 48, 48]

  /** A header of zero digits but for two: byte i holds a, byte j holds b. */
  function HeaderWith(i: nat, a: Byte, j: nat, b: Byte): (h: seq<Byte>)
    ensures |h| == HEADER
  {
    seq(HEADER, k requires 0 <= k < HEADER => if k < 6 then MAGIC[k] else if k == i then a else if k == j then b else ZERO_DIGIT)
  }

  /** Mode 00004000 and name size 00000001. */
  function SmallDir(): seq<Byte> { HeaderWith(18, 52, 101, 49) }

  /** simple_strtoul on the three fields that occur. */
  predicate ReadsHex(env: Env) {
    env.hex(ZEROS) == 0 && env.hex(ZEROS[4 := 52]) == 0x4000 && env.hex(ZEROS[7 := 49]) == 1
  }

  lemma {:induction false} SmallField(i: nat)
    requires i < 12
    ensures SmallDir()[6 + 8 * i..14 + 8 * i] == if i == 1 then ZEROS[4 := 52] else if i == 11 then ZEROS[7 := 49] else ZEROS
  {
  }

  lemma {:induction false} SmallDirParses(env: Env)
    requires ReadsHex(env)
    ensures DirHeader(env, SmallDir()) && NAlign(ParseHeader(env, SmallDir()).nameLen) == 2
  {
    var h := SmallDir();
    assert h[..6] == MAGIC;
    SmallField(1);
    SmallField(6);
    SmallField(11);
    assert Digits(env, h, 1) == 0x4000 && Digits(env, h, 6) == 0 && Digits(env, h, 11) == 1;
  }

  /** Name "aa" without a zero, cut between the two letters. */
  lemma {:induction false} UnterminatedExample(env: Env, s: Machine)
    requires ReadsHex(env) && Inv(s) && Booted(s) && |s.nameBuf| > 2 && s.nameBuf[2] == 0
    ensures var a: seq<Byte>, b: seq<Byte> := SmallDir() + [97], [97, ZERO_DIGIT, 0];
      FeedAll(true, env, s, [a, b]).trace != Feed(true, env, s, a + b).trace
  {
    var h := SmallDir();
    var f: seq<Byte> := [97, 97];
    SmallDirParses(env);
    UnterminatedShows(env, s, h, f, 1);
    assert f[..1] == [97] && f[1..] + [ZERO_DIGIT, 0] == [97, ZERO_DIGIT, 0];
    JoinTwo(h + [97], [97, ZERO_DIGIT, 0]);
  }

  /** An entry of zero digits before the directory "a", cut anywhere in its header. */
  lemma {:induction false} SkippedExample(env: Env, s: Machine, n: nat)
    requires ReadsHex(env) && Inv(s) && Booted(s) && n < HEADER
    ensures var h0 := HeaderWith(0, 0, 0, 0); var z: seq<Byte> := [0, 0] + (SmallDir() + [97, 0, ZERO_DIGIT]);
      FeedAll(true, env, s, [h0[..n], h0[n..] + z]).trace == [] && Feed(true, env, s, h0 + z).trace != []
  {
    var h0 := HeaderWith(0, 0, 0, 0);
    var f: seq<Byte> := [97, 0];
    SmallDirParses(env);
    assert h0[..6] == MAGIC && h0[94..102] == ZEROS && h0[54..62] == ZEROS;
    assert Digits(env, h0, 11) == 0 && Digits(env, h0, 6) == 0;
    assert f[1..] == [0] && CString(f) == [97];
    SkippedShows(env, s, h0, n, [0, 0], SmallDir(), f);
    assert f + [ZERO_DIGIT] == [97, 0, ZERO_DIGIT];
  }

  // ----- The loops of the original -----

  class Unpacker {
    const env: Env
    var machine: Machine
    var victim: seq<Byte>

    /** nameBuf is what the allocator left in name_buf. */
    constructor (env: Env, nameBuf: seq<Byte>)
      ensures this.env == env && Booted(machine) && machine.nameBuf == nameBuf
    {
      this.env := env;
      machine := Machine(Start, Start, 0, 0, Header(0, 0, 0, 0, 0, 0, 0, 0, (0, 0), 0), [], 0, nameBuf, [], map[], [], None, false);
      victim := [];
    }

    /** write_buffer: the bytes written are those not left in victim. */
    method WriteBuffer(buf: seq<Byte>) returns (written: nat)
      requires Inv(machine)
      modifies this
      ensures (machine, victim) == Run(true, env, old(machine), buf)
      ensures Inv(machine) && written == |buf| - |victim|
    {
      victim := buf;
      var stop := false;
      while !stop
        invariant Inv(machine) && |victim| <= |buf|
        invariant !stop ==> Run(true, env, machine, victim) == Run(true, env, old(machine), buf)
        invariant stop ==> (machine, victim) == Run(true, env, old(machine), buf)
        decreases !stop, |victim|, Rank(machine.state)
      {
        ActKeeps(true, env, machine, victim);
        var r := Act(true, env, machine, victim);
        machine, victim, stop := r.s, r.input, r.stop;
      }
      written := |buf| - |victim|;
    }

    /** flush_buffer. */
    method FlushBuffer(buf: seq<Byte>)
      requires Inv(machine)
      modifies this
      ensures Inv(machine) && machine == Feed(true, env, old(machine), buf)
    {
      if machine.message.Some? {
        return;
      }
      var rest := buf;
      var written := WriteBuffer(rest);
      while written < |rest| && machine.message.None?
        invariant Inv(machine) && written == |rest| - |victim|
        invariant victim != [] ==> Halted(machine)
        invariant Feed(true, env, old(machine), buf) == After(true, env, machine, victim)
        decreases if machine.message.None? then 1 else 0, |victim|
      {
        rest := victim;
        var c := rest[0];
        if c == ZERO_DIGIT {
          machine := machine.(state := Start);
          HungryEats(true, env, machine, rest);
          written := WriteBuffer(rest);
        } else if c == 0 {
          machine := machine.(state := Reset);
          HungryEats(true, env, machine, rest);
          written := WriteBuffer(rest);
        } else {
          machine := Fail(machine, JunkInArchive);
          written := 0;
        }
      }
    }
  }
}
