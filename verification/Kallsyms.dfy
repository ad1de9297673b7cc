/**
 * The kernel's symbol table: names compressed by a table of tokens in one byte stream, with a marker
 * every 256 names, and an iterator that remembers where it stands in the stream.
 */
module Kallsyms {
  type Byte = b: int | 0 <= b < 256

  /** tokens holds zero-terminated strings, tokenIndex where the one of each byte begins. */
  datatype Tables = Tables(addresses: seq<nat>, names: seq<Byte>, markers: seq<nat>, tokens: seq<Byte>, tokenIndex: seq<nat>)
  {
    function Count(): nat { |addresses| }
  }

  // ----- The stream -----

  /** Where name k begins, found by stepping over all names before it. */
  function Offset(names: seq<Byte>, k: nat): nat {
    if k == 0 then 0
    else
      var o := Offset(names, k - 1);
      if o < |names| then o + names[o] + 1 else o
  }

  /** The stream holds a name per address, the markers are right, and every token ends. */
  ghost predicate Linked(t: Tables) {
    && t.Count() > 0
    && (forall k :: 0 <= k < t.Count() ==> Fits(t.names, Offset(t.names, k)))
    && (forall j :: 0 <= j <= (t.Count() - 1) / 256 ==> Marked(t, j))
    && |t.tokenIndex| == 256 && (forall b :: 0 <= b < 256 ==> Ends(t.tokens, t.tokenIndex[b]))
  }

  predicate Marked(t: Tables, j: nat) { j < |t.markers| && t.markers[j] == Offset(t.names, 256 * j) }

  predicate Fits(names: seq<Byte>, o: nat) { o < |names| && o + names[o] + 1 <= |names| }

  ghost predicate Ends(tokens: seq<Byte>, i: nat) { exists e :: i <= e < |tokens| && tokens[e] == 0 }

  /** get_symbol_offset: from the closest marker, and then name by name. */
  method GetSymbolOffset(t: Tables, pos: nat) returns (off: nat)
    requires Linked(t) && pos < t.Count()
    ensures off == Offset(t.names, pos)
  {
    var j := pos / 256;
    assert Marked(t, j);
    off := t.markers[j];
    var i := 0;
    while i < pos % 256
      invariant i <= pos % 256 && off == Offset(t.names, 256 * j + i)
    {
      assert Fits(t.names, Offset(t.names, 256 * j + i));
      off := off + t.names[off] + 1;
      i := i + 1;
    }
  }

  // ----- Names -----

  /** The string that begins at i. */
  function Token(tokens: seq<Byte>, i: nat): seq<Byte>
    decreases |tokens| - i
  {
    if i >= |tokens| || tokens[i] == 0 then [] else [tokens[i]] + Token(tokens, i + 1)
  }

  /** The strings of the bytes from lo up to hi of the names, joined. */
  function Joined(t: Tables, lo: nat, hi: nat): seq<Byte>
    requires |t.tokenIndex| == 256 && hi <= |t.names|
  {
    if hi <= lo then [] else Joined(t, lo, hi - 1) + Token(t.tokens, t.tokenIndex[t.names[hi - 1]])
  }

  /** Type and name of a symbol, as they were compressed. */
  function Symbol(t: Tables, off: nat): seq<Byte>
    requires Fits(t.names, off) && |t.tokenIndex| == 256
  {
    Joined(t, off + 1, off + 1 + t.names[off])
  }

  function Tail(s: seq<Byte>): seq<Byte> { if s == [] then [] else s[1..] }

  lemma TailAppend(s: seq<Byte>, b: Byte)
    ensures Tail(s + [b]) == if s == [] then [] else Tail(s) + [b]
  {
  }

  /** The inner loop of kallsyms_expand_symbol: one token is copied, except for the very first
      character of all; s is everything met so far. */
  method CopyToken(t: Tables, from: nat, ghost s: seq<Byte>, so: seq<Byte>, skippedSo: bool) returns (result: seq<Byte>, skipped: bool)
    requires Ends(t.tokens, from) && so == Tail(s) && (skippedSo <==> s != [])
    ensures result == Tail(s + Token(t.tokens, from)) && (skipped <==> s + Token(t.tokens, from) != [])
  {
    result, skipped := so, skippedSo;
    var tptr := from;
    ghost var all := s;
    while t.tokens[tptr] != 0
      invariant Ends(t.tokens, tptr) && all + Token(t.tokens, tptr) == s + Token(t.tokens, from)
      invariant result == Tail(all) && (skipped <==> all != [])
      decreases |t.tokens| - tptr
    {
      var c := t.tokens[tptr];
      TailAppend(all, c);
      TokenOn(t.tokens, tptr, all);
      all := all + [c];
      if skipped {
        result := result + [c];
      } else {
        skipped := true;
      }
      tptr := tptr + 1;
    }
    assert all + [] == all;
  }

  lemma {:induction false} TokenOn(tokens: seq<Byte>, i: nat, s: seq<Byte>)
    requires i < |tokens| && tokens[i] != 0
    ensures s + Token(tokens, i) == s + [tokens[i]] + Token(tokens, i + 1)
  {
    Associates(s, [tokens[i]], Token(tokens, i + 1));
  }

  lemma Associates(a: seq<Byte>, b: seq<Byte>, c: seq<Byte>)
    ensures a + (b + c) == a + b + c
  {
  }

  /** The loop of kallsyms_expand_symbol. */
  method ExpandData(t: Tables, at: nat) returns (result: seq<Byte>)
    requires |t.tokenIndex| == 256 && (forall b :: 0 <= b < 256 ==> Ends(t.tokens, t.tokenIndex[b])) && Fits(t.names, at)
    ensures result == Tail(Symbol(t, at))
  {
    var len: int, data := t.names[at], at + 1;
    result := [];
    var skipped := false;
    ghost var s: seq<Byte> := [];
    while len > 0
      invariant 0 <= len <= t.names[at] && data == at + 1 + t.names[at] - len
      invariant s == Joined(t, at + 1, data) && result == Tail(s) && (skipped <==> s != [])
    {
      var tptr := t.tokenIndex[t.names[data]];
      result, skipped := CopyToken(t, tptr, s, result, skipped);
      s := s + Token(t.tokens, tptr);
      data := data + 1;
      len := len - 1;
    }
  }

  /** kallsyms_expand_symbol: the joined strings without their first character, and the next offset. */
  method ExpandSymbol(t: Tables, at: nat) returns (result: seq<Byte>, off: nat)
    requires Linked(t) && Fits(t.names, at)
    ensures result == Tail(Symbol(t, at)) && off == at + t.names[at] + 1
  {
    off := at + t.names[at] + 1;
    result := ExpandData(t, at);
  }

  /** kallsyms_get_symbol_type: the first character of the first token. */
  function SymbolType(t: Tables, off: nat): Byte
    requires Linked(t) && Fits(t.names, off) && t.names[off] > 0
  {
    assert Ends(t.tokens, t.tokenIndex[t.names[off + 1]]);
    t.tokens[t.tokenIndex[t.names[off + 1]]]
  }

  /** Type and expanded name together are the compressed string, when its first token is not empty. */
  lemma {:induction false} TypeAndName(t: Tables, off: nat)
    requires Linked(t) && Fits(t.names, off) && t.names[off] > 0 && SymbolType(t, off) != 0
    ensures [SymbolType(t, off)] + Tail(Symbol(t, off)) == Symbol(t, off)
  {
    JoinedHead(t, off + 1, off + 1 + t.names[off]);
    HeadAndTail(Symbol(t, off));
  }

  lemma HeadAndTail(s: seq<Byte>)
    requires s != []
    ensures [s[0]] + Tail(s) == s
  {
  }

  lemma {:induction false} JoinedHead(t: Tables, lo: nat, hi: nat)
    requires |t.tokenIndex| == 256 && lo < hi <= |t.names| && Token(t.tokens, t.tokenIndex[t.names[lo]]) != []
    ensures Joined(t, lo, hi) != [] && Joined(t, lo, hi)[0] == Token(t.tokens, t.tokenIndex[t.names[lo]])[0]
  {
    if lo < hi - 1 {
      JoinedHead(t, lo, hi - 1);
    }
  }

  /** kallsyms_lookup_name over the kernel's own symbols: the first of that name. */
  method LookupName(t: Tables, name: seq<Byte>) returns (found: bool, address: nat)
    requires Linked(t)
    ensures found ==> exists i :: 0 <= i < t.Count() && address == t.addresses[i] && NameAt(t, i) == name
                                  && forall j :: 0 <= j < i ==> NameAt(t, j) != name
    ensures !found ==> forall j :: 0 <= j < t.Count() ==> NameAt(t, j) != name
  {
    var i, off := 0, 0;
    while i < t.Count()
      invariant i <= t.Count() && off == Offset(t.names, i)
      invariant forall j :: 0 <= j < i ==> NameAt(t, j) != name
    {
      assert Fits(t.names, off);
      var buf;
      buf, off := ExpandSymbol(t, off);
      assert buf == NameAt(t, i);
      if buf == name {
        return true, t.addresses[i];
      }
      i := i + 1;
    }
    return false, 0;
  }

  ghost function NameAt(t: Tables, i: nat): seq<Byte>
    requires Linked(t) && i < t.Count()
  {
    assert Fits(t.names, Offset(t.names, i));
    Tail(Symbol(t, Offset(t.names, i)))
  }

  // ----- The iterator -----

  class Iter {
    const t: Tables
    var pos: nat
    var nameoff: nat
    var value: nat
    var name: seq<Byte>

    /** The remembered offset is the one a scan from the start would find. */
    ghost predicate Valid()
      reads this
    {
      Linked(t) && (pos < t.Count() ==> nameoff == Offset(t.names, pos))
    }

    /** kallsyms_open. */
    constructor (t: Tables)
      requires Linked(t)
      ensures Valid() && this.t == t && pos == 0
    {
      this.t := t;
      pos, nameoff, value, name := 0, 0, 0, [];
    }

    /** reset_iter. */
    method Reset(newPos: nat)
      requires Valid() && newPos < t.Count()
      modifies this
      ensures Valid() && pos == newPos && nameoff == Offset(t.names, newPos)
    {
      name := [];
      nameoff := GetSymbolOffset(t, newPos);
      pos := newPos;
    }

    /** update_iter: symbols of modules are looked up elsewhere, from any position. */
    method Update(p: nat) returns (core: bool)
      requires Valid()
      modifies this
      ensures Valid() && (core <==> p < t.Count())
      ensures core ==> value == t.addresses[p] && name == NameAt(t, p) && pos == p + 1 && nameoff == Offset(t.names, p + 1)
      ensures !core ==> pos == p
    {
      if p >= t.Count() {
        pos := p;
        return false;
      }
      if p != pos {
        Reset(p);
      }
      assert Fits(t.names, nameoff);
      value := t.addresses[pos];
      var off;
      name, off := ExpandSymbol(t, nameoff);
      nameoff := nameoff + (off - nameoff);
      pos := pos + 1;
      return true;
    }
  }

  // ----- Addresses -----

  predicate Sorted(a: seq<nat>) { forall i, j :: 0 <= i < j < |a| ==> a[i] <= a[j] }

  /** Where the linker put the sections. */
  datatype Sections = Sections(sinittext: nat, einittext: nat, etext: nat, end: nat)

  /** Where the last symbol ends: with the init text, with the whole image or, when there are no data
      symbols, with the text. */
  predicate EndsSection(e: Sections, addr: nat, allVar: bool, end: int) {
    && (e.sinittext <= addr <= e.einittext ==> end == e.einittext)
    && (!(e.sinittext <= addr <= e.einittext) && allVar ==> end == e.end)
    && (!(e.sinittext <= addr <= e.einittext) && !allVar ==> end == e.etext)
  }

  /** get_symbol_pos: the first alias of the greatest address not above addr, and the extent of that
      symbol up to the next other address or the end of the section. */
  method GetSymbolPos(a: seq<nat>, addr: nat, ends: Sections, allVar: bool) returns (low: nat, size: int, offset: int)
    requires Sorted(a) && a != []
    ensures low < |a| && forall j :: 0 <= j < low ==> a[j] < a[low]
    ensures a[0] <= addr ==> a[low] <= addr && forall j :: 0 <= j < |a| && a[j] <= addr ==> a[j] <= a[low]
    ensures addr < a[0] ==> low == 0
    ensures offset == addr - a[low]
    ensures (forall j :: 0 <= j < |a| ==> a[j] <= a[low]) ==> EndsSection(ends, addr, allVar, a[low] + size)
    ensures forall i :: 0 <= i < |a| && a[i] > a[low] && (forall j :: 0 <= j < i ==> a[j] <= a[low]) ==> size == a[i] - a[low]
  {
    low := 0;
    var high := |a|;
    while high - low > 1
      invariant low < high <= |a|
      invariant low > 0 ==> a[low] <= addr
      invariant high < |a| ==> addr < a[high]
    {
      var mid := (low + high) / 2;
      if a[mid] <= addr {
        low := mid;
      } else {
        high := mid;
      }
    }
    while low > 0 && a[low - 1] == a[low]
      invariant low < high && (low > 0 ==> a[low] <= addr)
      invariant forall j :: low <= j < high ==> a[j] == a[low]
    {
      low := low - 1;
    }
    var i, end: int, start: int := low + 1, 0, a[low];
    if ends.sinittext <= addr <= ends.einittext {
      end := ends.einittext;
    } else if allVar {
      end := ends.end;
    } else {
      end := ends.etext;
    }
    while i < |a|
      invariant low < i <= |a| && EndsSection(ends, addr, allVar, end) && forall j :: low <= j < i ==> a[j] <= a[low]
    {
      if a[i] > a[low] {
        end := a[i];
        break;
      }
      i := i + 1;
    }
    size, offset := end - start, addr - start;
  }
}
