/**
 * Path sets on the wire: each element announces its fields in a tag byte, paths
 * are parted by 0xFF and the set ends with 0x00. The parser does not keep the
 * announced tag; it infers one anew from the values it read.
 */
module PathSets {
  import opened Arith

  type Bytes20 = s: seq<Byte> | |s| == 20 witness ZEROS[..20]
  type Bytes24 = s: seq<Byte> | |s| == 24 witness ZEROS

  const ZEROS: seq<Byte> := [0, 0, 0, 0, 0, 0, 0, 0, 0, 0, 0, 0, 0, 0, 0, 0, 0, 0, 0, 0, 0, 0, 0, 0]
  const ZERO20: Bytes20 := ZEROS[..20]
  const ZERO24: Bytes24 := ZEROS

  const NONE: Byte := 0x00
  const ACCOUNT: Byte := 0x01
  const CURRENCY: Byte := 0x10
  const ISSUER: Byte := 0x20
  const MPT: Byte := 0x40
  const BOUNDARY: Byte := 0xFF

  predicate Bit(tag: Byte, bit: Byte)
    requires bit > 0
  {
    (tag / bit) % 2 == 1
  }

  /** No bit outside the four announced fields. */
  predicate Known(tag: Byte) { !Bit(tag, 2) && !Bit(tag, 4) && !Bit(tag, 8) && !Bit(tag, 128) }

  datatype Asset = Currency(code: Bytes20) | Mpt(id: Bytes24) {
    predicate IsXrp() { Currency? && code == ZERO20 }
  }

  datatype RawElement = RawElement(tag: Byte, account: Bytes20, asset: Asset, issuer: Bytes20)

  /** Every constructor keeps the asset bits in step with the asset held. */
  type Element = e: RawElement | (Bit(e.tag, CURRENCY) ==> e.asset.Currency?) && (Bit(e.tag, MPT) ==> e.asset.Mpt?)
    witness RawElement(0, ZERO20, Currency(ZERO20), ZERO20)

  type Path = seq<Element>

  function TagOf(account: bool, currency: bool, issuer: bool, mpt: bool): (tag: Byte)
    ensures Known(tag) && tag != BOUNDARY
    ensures Bit(tag, ACCOUNT) == account && Bit(tag, CURRENCY) == currency && Bit(tag, ISSUER) == issuer && Bit(tag, MPT) == mpt
  {
    (if account then 1 else 0) + (if currency then 16 else 0) + (if issuer then 32 else 0) + (if mpt then 64 else 0)
  }

  lemma LowBits(tag: Byte)
    requires Known(tag)
    ensures tag == 16 * (tag / 16) + tag % 2 && (tag / 16) / 8 == 0
  {
    assert tag / 2 == 2 * (tag / 4) && tag / 4 == 2 * (tag / 8) && tag / 8 == 2 * (tag / 16);
  }

  lemma HighBits(high: nat)
    requires high < 8
    ensures high == high % 2 + 2 * ((high / 2) % 2) + 4 * ((high / 4) % 2)
  {
  }

  /** A known tag is its four bits. */
  lemma TagIsItsBits(tag: Byte)
    requires Known(tag)
    ensures tag == TagOf(Bit(tag, ACCOUNT), Bit(tag, CURRENCY), Bit(tag, ISSUER), Bit(tag, MPT))
  {
    LowBits(tag);
    HighBits(tag / 16);
    assert (tag / 16) / 2 == tag / 32 && (tag / 16) / 4 == tag / 64;
    hide Known;
  }

  /** `inferred`: the tag follows from the values, save that an asset may be forced. */
  function Inferred(account: Bytes20, asset: Asset, issuer: Bytes20, force: bool): Element {
    var shown := force || !asset.IsXrp();
    RawElement(TagOf(account != ZERO20, shown && asset.Currency?, issuer != ZERO20, shown && asset.Mpt?), account, asset, issuer)
  }

  ghost predicate IsInferred(e: Element) {
    e == Inferred(e.account, e.asset, e.issuer, Bit(e.tag, CURRENCY) || Bit(e.tag, MPT))
  }

  /** Exactly the elements some call of `inferred` returns. */
  lemma InferredElements(e: Element)
    ensures IsInferred(e) <==> exists force :: e == Inferred(e.account, e.asset, e.issuer, force)
  {
    assert e == Inferred(e.account, e.asset, e.issuer, true) ==> IsInferred(e);
    assert e == Inferred(e.account, e.asset, e.issuer, false) ==> IsInferred(e);
  }

  // ----- printing -------------------------------------------------------------------------

  function PrintElement(e: Element): seq<Byte> {
    [e.tag]
    + (if Bit(e.tag, ACCOUNT) then e.account else [])
    + (if Bit(e.tag, MPT) then e.asset.id else [])
    + (if Bit(e.tag, CURRENCY) then e.asset.code else [])
    + (if Bit(e.tag, ISSUER) then e.issuer else [])
  }

  /** The rest of the current path, then the remaining paths, then the terminator. */
  function PrintRest(rest: Path, more: seq<Path>): (r: seq<Byte>)
    ensures |r| > 0
    decreases |more|, |rest|
  {
    if rest != [] then PrintElement(rest[0]) + PrintRest(rest[1..], more)
    else if more != [] then [BOUNDARY] + PrintRest(more[0], more[1..])
    else [NONE]
  }

  function Printed(paths: seq<Path>): seq<Byte> {
    if paths == [] then [NONE] else PrintRest(paths[0], paths[1..])
  }

  /** What is left to print before path `i`. */
  function PrintFrom(paths: seq<Path>, i: nat): seq<Byte>
    requires i <= |paths|
  {
    if i == 0 then Printed(paths) else PrintRest([], paths[i..])
  }

  lemma NextElement(out: seq<Byte>, path: Path, j: nat, more: seq<Path>)
    requires j < |path|
    ensures out + PrintRest(path[j..], more) == (out + PrintElement(path[j])) + PrintRest(path[j + 1..], more)
  {
    hide PrintElement;
    assert path[j..][0] == path[j] && path[j..][1..] == path[j + 1..];
  }

  lemma NextPath(out: seq<Byte>, paths: seq<Path>, i: nat)
    requires i < |paths|
    ensures out + PrintFrom(paths, i) == (out + if i > 0 then [BOUNDARY] else []) + PrintRest(paths[i], paths[i + 1..])
  {
    hide PrintElement;
    if i > 0 {
      assert paths[i..][0] == paths[i] && paths[i..][1..] == paths[i + 1..];
    } else {
      assert out + [] == out;
    }
  }

  lemma PathDone(path: Path, paths: seq<Path>, i: nat)
    requires i < |paths|
    ensures PrintRest(path[|path|..], paths[i + 1..]) == PrintFrom(paths, i + 1)
  {
    assert path[|path|..] == [];
  }

  lemma AllPrinted(paths: seq<Path>)
    ensures PrintFrom(paths, |paths|) == [NONE]
  {
    assert paths[|paths|..] == [];
  }

  /** `add`. */
  method Print(paths: seq<Path>) returns (out: seq<Byte>)
    ensures out == Printed(paths)
  {
    hide PrintElement, PrintRest, PrintFrom;
    out := [];
    assert [] + PrintFrom(paths, 0) == Printed(paths) by { StartPrinting(paths); }
    for i := 0 to |paths|
      invariant out + PrintFrom(paths, i) == Printed(paths)
    {
      NextPath(out, paths, i);
      if i > 0 {
        out := out + [BOUNDARY];
      } else {
        assert out + [] == out;
      }
      var path := paths[i];
      assert path[0..] == path;
      for j := 0 to |path|
        invariant out + PrintRest(path[j..], paths[i + 1..]) == Printed(paths)
      {
        NextElement(out, path, j, paths[i + 1..]);
        out := out + PrintElement(path[j]);
      }
      PathDone(path, paths, i);
    }
    AllPrinted(paths);
    out := out + [NONE];
  }

  lemma StartPrinting(paths: seq<Path>)
    ensures [] + PrintFrom(paths, 0) == Printed(paths)
  {
  }

  // ----- parsing --------------------------------------------------------------------------

  datatype Error = EmptyPath | BadElement | CurrencyAndMpt

  /** What is left of the current path, the further paths, and where the cursor stops. */
  datatype Tail = Tail(rest: Path, more: seq<Path>, used: nat) | Failed(error: Error)

  datatype Cursor<+T> = Cursor(value: T, used: nat)

  /** Reading past the end yields the default and does not move the cursor. */
  function Get8(data: seq<Byte>, used: nat): Cursor<Byte> {
    if used < |data| then Cursor(data[used], used + 1) else Cursor(0, used)
  }

  function Get20(data: seq<Byte>, used: nat): Cursor<Bytes20> {
    if used + 20 <= |data| then Cursor(data[used..used + 20], used + 20) else Cursor(ZERO20, used)
  }

  function Get24(data: seq<Byte>, used: nat): Cursor<Bytes24> {
    if used + 24 <= |data| then Cursor(data[used..used + 24], used + 24) else Cursor(ZERO24, used)
  }

  function ReadAccount(data: seq<Byte>, tag: Byte, used: nat): Cursor<Bytes20> {
    if Bit(tag, ACCOUNT) then Get20(data, used) else Cursor(ZERO20, used)
  }

  function ReadAsset(data: seq<Byte>, tag: Byte, used: nat): Cursor<Asset> {
    if Bit(tag, CURRENCY) then var c := Get20(data, used); Cursor(Currency(c.value), c.used)
    else if Bit(tag, MPT) then var c := Get24(data, used); Cursor(Mpt(c.value), c.used)
    else Cursor(Currency(ZERO20), used)
  }

  function ReadIssuer(data: seq<Byte>, tag: Byte, used: nat): Cursor<Bytes20> {
    if Bit(tag, ISSUER) then Get20(data, used) else Cursor(ZERO20, used)
  }

  function ReadElement(data: seq<Byte>, tag: Byte, used: nat): (c: Cursor<Element>)
    requires used <= |data|
    ensures used <= c.used <= |data|
  {
    var a := ReadAccount(data, tag, used);
    var s := ReadAsset(data, tag, a.used);
    var i := ReadIssuer(data, tag, s.used);
    Cursor(Inferred(a.value, s.value, i.value, Bit(tag, CURRENCY) || Bit(tag, MPT)), i.used)
  }

  /** An element, or a finished path, put in front of what follows it. */
  function Consed(e: Element, t: Tail): Tail {
    if t.Failed? then t else Tail([e] + t.rest, t.more, t.used)
  }

  function Parted(t: Tail): Tail {
    if t.Failed? then t else Tail([], [t.rest] + t.more, t.used)
  }

  function ParseTail(data: seq<Byte>, used: nat, empty: bool): (t: Tail)
    requires used <= |data|
    ensures t.Tail? ==> used <= t.used <= |data|
    decreases |data| - used
  {
    var tag := Get8(data, used);
    if tag.value == NONE || tag.value == BOUNDARY then
      if empty then Failed(EmptyPath)
      else if tag.value == NONE then Tail([], [], tag.used)
      else Parted(ParseTail(data, tag.used, true))
    else if !Known(tag.value) then Failed(BadElement)
    else if Bit(tag.value, CURRENCY) && Bit(tag.value, MPT) then Failed(CurrencyAndMpt)
    else
      var e := ReadElement(data, tag.value, tag.used);
      Consed(e.value, ParseTail(data, e.used, false))
  }

  datatype Result = Parsed(paths: seq<Path>, used: nat) | Rejected(error: Error)

  function Assembled(done: seq<Path>, path: Path, t: Tail): Result {
    if t.Failed? then Rejected(t.error) else Parsed(done + [path + t.rest] + t.more, t.used)
  }

  function ParsedFrom(data: seq<Byte>, used: nat): Result
    requires used <= |data|
  {
    Assembled([], [], ParseTail(data, used, true))
  }

  /** `from_serial_iter`. */
  method Parse(data: seq<Byte>, start: nat) returns (r: Result)
    requires start <= |data|
    ensures r == ParsedFrom(data, start)
  {
    var used, done, path: Path := start, [], [];
    while true
      invariant start <= used <= |data|
      invariant Assembled(done, path, ParseTail(data, used, path == [])) == ParsedFrom(data, start)
      decreases |data| - used
    {
      var tag := Get8(data, used);
      if tag.value == NONE || tag.value == BOUNDARY {
        if path == [] {
          return Rejected(EmptyPath);
        }
        if tag.value == NONE {
          assert path + [] == path;
          assert done + [path + []] + [] == done + [path];
          return Parsed(done + [path], tag.used);
        }
        Regroup(done, path, ParseTail(data, tag.used, true));
        used, done, path := tag.used, done + [path], [];
      } else if !Known(tag.value) {
        return Rejected(BadElement);
      } else if Bit(tag.value, CURRENCY) && Bit(tag.value, MPT) {
        return Rejected(CurrencyAndMpt);
      } else {
        var e := ReadElement(data, tag.value, tag.used);
        Regrow(done, path, e.value, ParseTail(data, e.used, false));
        used, path := e.used, path + [e.value];
      }
    }
  }

  lemma Regroup(done: seq<Path>, path: Path, t: Tail)
    ensures Assembled(done, path, Parted(t)) == Assembled(done + [path], [], t)
  {
    if t.Tail? {
      assert path + [] == path && [] + t.rest == t.rest;
      assert done + [path] + ([t.rest] + t.more) == done + [path] + [t.rest] + t.more;
    }
  }

  lemma Regrow(done: seq<Path>, path: Path, e: Element, t: Tail)
    ensures Assembled(done, path, Consed(e, t)) == Assembled(done, path + [e], t)
  {
    if t.Tail? {
      assert path + ([e] + t.rest) == path + [e] + t.rest;
    }
  }

  // ----- print, then parse ------------------------------------------------------------------

  /** An element whose tag shows exactly what it holds, and something at all. */
  ghost predicate Writable(e: Element) { IsInferred(e) && e.tag != NONE }

  ghost predicate AllWritable(path: Path) { forall i :: 0 <= i < |path| ==> Writable(path[i]) }

  /** What the format can carry: no empty path, writable elements only. */
  ghost predicate Carried(empty: bool, rest: Path, more: seq<Path>) {
    && (empty ==> rest != []) && AllWritable(rest)
    && (forall i :: 0 <= i < |more| ==> more[i] != [] && AllWritable(more[i]))
  }

  ghost predicate StartsAt(data: seq<Byte>, used: nat, part: seq<Byte>) {
    used + |part| <= |data| && data[used..used + |part|] == part
  }

  lemma SplitStart(data: seq<Byte>, used: nat, a: seq<Byte>, b: seq<Byte>)
    requires StartsAt(data, used, a + b)
    ensures StartsAt(data, used, a) && StartsAt(data, used + |a|, b)
  {
    assert data[used..used + |a|] == data[used..used + |a + b|][..|a|];
    assert data[used + |a|..used + |a| + |b|] == data[used..used + |a + b|][|a|..];
  }

  /** A tagged inferred element reads back as itself. */
  lemma ElementReadsBack(data: seq<Byte>, used: nat, e: Element)
    requires IsInferred(e) && StartsAt(data, used, PrintElement(e))
    ensures ReadElement(data, e.tag, used + 1) == Cursor(e, used + |PrintElement(e)|)
    ensures used + 1 <= |data| && data[used] == e.tag
    ensures Known(e.tag) && e.tag != BOUNDARY && !(Bit(e.tag, CURRENCY) && Bit(e.tag, MPT))
  {
    hide Bit, Known, TagOf, StartsAt;
    var a: seq<Byte> := if Bit(e.tag, ACCOUNT) then e.account else [];
    var m: seq<Byte> := if Bit(e.tag, MPT) then e.asset.id else [];
    var c: seq<Byte> := if Bit(e.tag, CURRENCY) then e.asset.code else [];
    var i: seq<Byte> := if Bit(e.tag, ISSUER) then e.issuer else [];
    SplitStart(data, used, [e.tag] + a + m + c, i);
    SplitStart(data, used, [e.tag] + a + m, c);
    SplitStart(data, used, [e.tag] + a, m);
    SplitStart(data, used, [e.tag], a);
    FirstByte(data, used, e.tag);
    AccountReadsBack(data, used + 1, e, a);
    AssetReadsBack(data, used + 1 + |a|, e, m, c);
    IssuerReadsBack(data, used + 1 + |a| + |m| + |c|, e, i);
    hide ReadAccount, ReadAsset, ReadIssuer, PrintElement;
  }

  lemma FirstByte(data: seq<Byte>, used: nat, b: Byte)
    requires StartsAt(data, used, [b])
    ensures used + 1 <= |data| && data[used] == b
  {
    assert data[used] == data[used..used + 1][0];
  }

  lemma AccountReadsBack(data: seq<Byte>, used: nat, e: Element, a: seq<Byte>)
    requires IsInferred(e) && a == (if Bit(e.tag, ACCOUNT) then e.account else []) && StartsAt(data, used, a)
    ensures ReadAccount(data, e.tag, used) == Cursor(e.account, used + |a|)
  {
    hide Bit, Known, TagOf;
  }

  lemma AssetReadsBack(data: seq<Byte>, used: nat, e: Element, m: seq<Byte>, c: seq<Byte>)
    requires IsInferred(e) && m == (if Bit(e.tag, MPT) then e.asset.id else []) && StartsAt(data, used, m)
    requires c == (if Bit(e.tag, CURRENCY) then e.asset.code else []) && StartsAt(data, used + |m|, c)
    ensures ReadAsset(data, e.tag, used) == Cursor(e.asset, used + |m| + |c|)
  {
    hide Bit, Known, TagOf;
  }

  lemma IssuerReadsBack(data: seq<Byte>, used: nat, e: Element, i: seq<Byte>)
    requires IsInferred(e) && i == (if Bit(e.tag, ISSUER) then e.issuer else []) && StartsAt(data, used, i)
    ensures ReadIssuer(data, e.tag, used) == Cursor(e.issuer, used + |i|)
  {
    hide Bit, Known, TagOf;
  }

  lemma CarriedElement(empty: bool, rest: Path, more: seq<Path>)
    requires rest != []
    ensures Carried(empty, rest, more) <==> Writable(rest[0]) && Carried(false, rest[1..], more)
  {
    assert rest == [rest[0]] + rest[1..];
  }

  lemma CarriedPath(empty: bool, more: seq<Path>)
    requires more != []
    ensures Carried(empty, [], more) <==> !empty && Carried(true, more[0], more[1..])
  {
    assert more == [more[0]] + more[1..];
  }

  lemma ConsedIsInjective(e: Element, t: Tail, rest: Path, more: seq<Path>, end: nat)
    ensures Consed(e, t) == Tail([e] + rest, more, end) <==> t == Tail(rest, more, end)
  {
    assert ([e] + rest)[1..] == rest;
    assert t.Tail? ==> ([e] + t.rest)[1..] == t.rest;
  }

  lemma PartedIsInjective(t: Tail, path: Path, more: seq<Path>, end: nat)
    ensures Parted(t) == Tail([], [path] + more, end) <==> t == Tail(path, more, end)
  {
    assert ([path] + more)[0] == path && ([path] + more)[1..] == more;
    assert t.Tail? ==> ([t.rest] + t.more)[0] == t.rest && ([t.rest] + t.more)[1..] == t.more;
  }

  /** One printed element in front: parsing reads it, unless its tag is the terminator. */
  lemma ElementInFront(data: seq<Byte>, used: nat, empty: bool, e: Element)
    requires IsInferred(e) && StartsAt(data, used, PrintElement(e))
    ensures used + |PrintElement(e)| <= |data|
    ensures e.tag != NONE ==> ParseTail(data, used, empty) == Consed(e, ParseTail(data, used + |PrintElement(e)|, false))
    ensures e.tag == NONE ==> ParseTail(data, used, empty) == if empty then Failed(EmptyPath) else Tail([], [], used + 1)
  {
    ElementReadsBack(data, used, e);
    hide Bit, Known, PrintElement, ReadElement, IsInferred, StartsAt, Consed, Parted;
  }

  /** The claim of the round trip for one position. */
  ghost predicate ReadsBack(data: seq<Byte>, used: nat, empty: bool, rest: Path, more: seq<Path>)
    requires used <= |data|
  {
    ParseTail(data, used, empty) == Tail(rest, more, used + |PrintRest(rest, more)|)
  }

  lemma WritableCase(data: seq<Byte>, used: nat, empty: bool, rest: Path, more: seq<Path>)
    requires rest != [] && IsInferred(rest[0]) && StartsAt(data, used, PrintElement(rest[0]))
    requires used + |PrintElement(rest[0])| <= |data|
    requires ReadsBack(data, used + |PrintElement(rest[0])|, false, rest[1..], more) <==> Carried(false, rest[1..], more)
    ensures ReadsBack(data, used, empty, rest, more) <==> Carried(empty, rest, more)
  {
    hide *;
    if rest[0].tag != NONE {
      TaggedCase(data, used, empty, rest, more);
    } else {
      UntaggedCase(data, used, empty, rest, more);
    }
  }

  /** A tagged element is read and the rest follows. */
  lemma TaggedCase(data: seq<Byte>, used: nat, empty: bool, rest: Path, more: seq<Path>)
    requires rest != [] && IsInferred(rest[0]) && rest[0].tag != NONE && StartsAt(data, used, PrintElement(rest[0]))
    requires used + |PrintElement(rest[0])| <= |data|
    requires ReadsBack(data, used + |PrintElement(rest[0])|, false, rest[1..], more) <==> Carried(false, rest[1..], more)
    ensures ReadsBack(data, used, empty, rest, more) <==> Carried(empty, rest, more)
  {
    hide Bit, Known, StartsAt, PrintElement, IsInferred, Carried, ParseTail, Consed;
    var e := rest[0];
    ElementInFront(data, used, empty, e);
    CarriedElement(empty, rest, more);
    assert rest == [e] + rest[1..];
    ConsedIsInjective(e, ParseTail(data, used + |PrintElement(e)|, false), rest[1..], more, used + |PrintRest(rest, more)|);
  }

  /** The zero tag reads as the terminator. */
  lemma UntaggedCase(data: seq<Byte>, used: nat, empty: bool, rest: Path, more: seq<Path>)
    requires rest != [] && IsInferred(rest[0]) && rest[0].tag == NONE && StartsAt(data, used, PrintElement(rest[0]))
    requires used + |PrintElement(rest[0])| <= |data|
    ensures !ReadsBack(data, used, empty, rest, more) && !Carried(empty, rest, more)
  {
    hide Bit, Known, StartsAt, PrintElement, PrintRest, IsInferred, Carried, ParseTail, Consed;
    ElementInFront(data, used, empty, rest[0]);
    CarriedElement(empty, rest, more);
  }

  lemma ForeignCase(data: seq<Byte>, used: nat, empty: bool, rest: Path, more: seq<Path>)
    requires rest != [] && !IsInferred(rest[0]) && used <= |data|
    ensures !ReadsBack(data, used, empty, rest, more) && !Carried(empty, rest, more)
  {
    OnlyInferred(data, used, empty);
    CarriedElement(empty, rest, more);
    hide IsInferred, Carried, ParseTail, PrintRest;
  }

  lemma ElementCase(data: seq<Byte>, used: nat, empty: bool, rest: Path, more: seq<Path>)
    requires rest != [] && StartsAt(data, used, PrintElement(rest[0]))
    requires used + |PrintElement(rest[0])| <= |data|
    requires ReadsBack(data, used + |PrintElement(rest[0])|, false, rest[1..], more) <==> Carried(false, rest[1..], more)
    ensures ReadsBack(data, used, empty, rest, more) <==> Carried(empty, rest, more)
  {
    hide *;
    if IsInferred(rest[0]) {
      WritableCase(data, used, empty, rest, more);
    } else {
      ForeignCase(data, used, empty, rest, more);
    }
  }

  /** The parser makes inferred elements only. */
  lemma OnlyInferred(data: seq<Byte>, used: nat, empty: bool)
    requires used <= |data|
    ensures var t := ParseTail(data, used, empty); t.Tail? && t.rest != [] ==> IsInferred(t.rest[0])
  {
    hide Bit, Known, TagOf;
  }

  lemma BoundaryCase(data: seq<Byte>, used: nat, empty: bool, more: seq<Path>)
    requires more != [] && used < |data| && data[used] == BOUNDARY
    requires ReadsBack(data, used + 1, true, more[0], more[1..]) <==> Carried(true, more[0], more[1..])
    ensures ReadsBack(data, used, empty, [], more) <==> Carried(empty, [], more)
  {
    hide Bit, Known, PrintElement, ReadElement;
    CarriedPath(empty, more);
    hide Carried, Parted;
    assert more == [more[0]] + more[1..];
    PartedIsInjective(ParseTail(data, used + 1, true), more[0], more[1..], used + |PrintRest([], more)|);
  }

  /**
   * Parsing what was printed gives it back and stops right behind it exactly
   * when the format can carry it, whatever follows and wherever it starts.
   */
  lemma {:induction false} PrintThenParse(data: seq<Byte>, used: nat, empty: bool, rest: Path, more: seq<Path>)
    requires StartsAt(data, used, PrintRest(rest, more))
    ensures used <= |data|
    ensures ReadsBack(data, used, empty, rest, more) <==> Carried(empty, rest, more)
    decreases |more|, |rest|
  {
    hide Bit, Known, IsInferred, PrintElement, ReadElement;
    if rest != [] {
      hide Carried, ReadsBack;
      SplitStart(data, used, PrintElement(rest[0]), PrintRest(rest[1..], more));
      PrintThenParse(data, used + |PrintElement(rest[0])|, false, rest[1..], more);
      ElementCase(data, used, empty, rest, more);
    } else if more != [] {
      hide Carried, ReadsBack;
      SplitStart(data, used, [BOUNDARY], PrintRest(more[0], more[1..]));
      assert data[used] == data[used..used + 1][0];
      PrintThenParse(data, used + 1, true, more[0], more[1..]);
      BoundaryCase(data, used, empty, more);
    } else {
      assert data[used] == data[used..used + 1][0];
    }
  }

  lemma WholeSet(t: Tail)
    ensures Assembled([], [], t) == if t.Failed? then Rejected(t.error) else Parsed([t.rest] + t.more, t.used)
  {
    if t.Tail? {
      assert [] + t.rest == t.rest;
      assert [] + [t.rest] == [t.rest];
    }
  }

  /** The round trip of a whole set, with any bytes behind it. */
  lemma RoundTrip(paths: seq<Path>, suffix: seq<Byte>)
    ensures ParsedFrom(Printed(paths) + suffix, 0) == Parsed(paths, |Printed(paths)|)
       <==> paths != [] && forall i :: 0 <= i < |paths| ==> paths[i] != [] && AllWritable(paths[i])
  {
    hide Bit, Known, IsInferred, PrintElement, ReadElement;
    var data := Printed(paths) + suffix;
    WholeSet(ParseTail(data, 0, true));
    if paths != [] {
      assert data[0..0 + |Printed(paths)|] == Printed(paths);
      PrintThenParse(data, 0, true, paths[0], paths[1..]);
      hide ParseTail, PrintRest, AllWritable;
      var t := ParseTail(data, 0, true);
      assert paths == [paths[0]] + paths[1..];
      assert t.Tail? ==> ([t.rest] + t.more)[0] == t.rest && ([t.rest] + t.more)[1..] == t.more;
    }
  }

  // ----- parse, then print ------------------------------------------------------------------

  /** Announced account and issuer are in the input and not zero, an announced asset is in the input. */
  ghost predicate CleanElement(data: seq<Byte>, tag: Byte, used: nat) {
    var a := used + if Bit(tag, ACCOUNT) then 20 else 0;
    var s := a + if Bit(tag, CURRENCY) then 20 else if Bit(tag, MPT) then 24 else 0;
    var i := s + if Bit(tag, ISSUER) then 20 else 0;
    && i <= |data|
    && (Bit(tag, ACCOUNT) ==> data[used..a] != ZERO20)
    && (Bit(tag, ISSUER) ==> data[s..i] != ZERO20)
  }

  /** Every element up to the terminator is clean, and the terminator is in the input. */
  ghost predicate Clean(data: seq<Byte>, used: nat)
    requires used <= |data|
    decreases |data| - used
  {
    && used < |data|
    && (data[used] == BOUNDARY ==> Clean(data, used + 1))
    && (data[used] != NONE && data[used] != BOUNDARY ==>
          CleanElement(data, data[used], used + 1) && Clean(data, ReadElement(data, data[used], used + 1).used))
  }

  /** What reading an element leaves of its announced tag. */
  lemma TagRead(data: seq<Byte>, tag: Byte, used: nat)
    requires used <= |data| && Known(tag) && !(Bit(tag, CURRENCY) && Bit(tag, MPT))
    ensures var a := ReadAccount(data, tag, used);
            var i := ReadIssuer(data, tag, ReadAsset(data, tag, a.used).used);
            ReadElement(data, tag, used).value.tag ==
            TagOf(a.value != ZERO20, Bit(tag, CURRENCY), i.value != ZERO20, Bit(tag, MPT))
  {
    hide Bit, Known;
  }

  lemma AssetLength(data: seq<Byte>, tag: Byte, used: nat)
    requires used <= |data|
    ensures var s := ReadAsset(data, tag, used);
            s.used == used + (if Bit(tag, CURRENCY) then 20 else if Bit(tag, MPT) then 24 else 0)
            || s.used == used > |data| - (if Bit(tag, CURRENCY) then 20 else if Bit(tag, MPT) then 24 else 0)
  {
    hide Bit;
  }

  /** A clean element prints as it was read. */
  lemma CleanPrintsBack(data: seq<Byte>, used: nat)
    requires used < |data| && Known(data[used]) && !(Bit(data[used], CURRENCY) && Bit(data[used], MPT))
    requires CleanElement(data, data[used], used + 1)
    ensures var e := ReadElement(data, data[used], used + 1); PrintElement(e.value) == data[used..e.used]
  {
    hide Bit, Known, TagOf;
    var tag := data[used];
    TagIsItsBits(tag);
    TagRead(data, tag, used + 1);
    var a := used + 1 + if Bit(tag, ACCOUNT) then 20 else 0;
    var s := a + if Bit(tag, CURRENCY) then 20 else if Bit(tag, MPT) then 24 else 0;
    var i := s + if Bit(tag, ISSUER) then 20 else 0;
    var e := ReadElement(data, tag, used + 1);
    assert e.used == i && e.value.tag == tag;
    Slices(data, used, a, s, i);
    assert (if Bit(tag, ACCOUNT) then e.value.account else []) == data[used + 1..a];
    assert (if Bit(tag, MPT) then e.value.asset.id else []) + (if Bit(tag, CURRENCY) then e.value.asset.code else []) == data[a..s];
    assert (if Bit(tag, ISSUER) then e.value.issuer else []) == data[s..i];
    hide ReadElement;
    Regrouped(e.value);
  }

  lemma Slices(data: seq<Byte>, u: nat, a: nat, s: nat, i: nat)
    requires u < a <= s <= i <= |data|
    ensures data[u..i] == [data[u]] + data[u + 1..a] + data[a..s] + data[s..i]
  {
    assert data[u..a] == [data[u]] + data[u + 1..a];
    assert data[u..s] == data[u..a] + data[a..s];
    assert data[u..i] == data[u..s] + data[s..i];
  }

  lemma Regrouped(e: Element)
    ensures PrintElement(e) == [e.tag] + (if Bit(e.tag, ACCOUNT) then e.account else [])
              + ((if Bit(e.tag, MPT) then e.asset.id else []) + (if Bit(e.tag, CURRENCY) then e.asset.code else []))
              + (if Bit(e.tag, ISSUER) then e.issuer else [])
  {
    hide Bit;
  }

  /** An unclean one betrays itself in its tag or its length. */
  lemma UncleanShows(data: seq<Byte>, used: nat)
    requires used < |data| && Known(data[used]) && !(Bit(data[used], CURRENCY) && Bit(data[used], MPT))
    requires !CleanElement(data, data[used], used + 1)
    ensures var e := ReadElement(data, data[used], used + 1);
            e.value.tag != data[used] || used + |PrintElement(e.value)| > |data|
  {
    var tag := data[used];
    TagIsItsBits(tag);
    TagRead(data, tag, used + 1);
    AssetLength(data, tag, ReadAccount(data, tag, used + 1).used);
    hide Bit, Known, TagOf, ReadAsset;
  }

  /** The claim of re-printing for one position. */
  ghost predicate PrintsBack(data: seq<Byte>, used: nat, t: Tail)
    requires t.Tail? && used <= t.used <= |data|
  {
    PrintRest(t.rest, t.more) == data[used..t.used]
  }

  lemma ElementPrinted(data: seq<Byte>, used: nat, t: Tail)
    requires used < |data| && Known(data[used]) && !(Bit(data[used], CURRENCY) && Bit(data[used], MPT)) && t.Tail?
    requires ReadElement(data, data[used], used + 1).used <= t.used <= |data|
    ensures var e := ReadElement(data, data[used], used + 1);
            PrintsBack(data, used, Consed(e.value, t)) <==>
            CleanElement(data, data[used], used + 1) && PrintsBack(data, e.used, t)
  {
    hide Bit, Known, ReadElement, CleanElement, PrintElement;
    var e := ReadElement(data, data[used], used + 1);
    assert ([e.value] + t.rest)[1..] == t.rest;
    if CleanElement(data, data[used], used + 1) {
      CleanPrintsBack(data, used);
      Prepend(data, used, e.used, t.used, PrintElement(e.value), PrintRest(t.rest, t.more));
    } else {
      UncleanShows(data, used);
      Betrayed(data, used, Consed(e.value, t), e.value, PrintRest(t.rest, t.more));
    }
  }

  lemma BoundaryPrinted(data: seq<Byte>, used: nat, t: Tail)
    requires used < |data| && data[used] == BOUNDARY && t.Tail? && used + 1 <= t.used <= |data|
    ensures PrintsBack(data, used, Parted(t)) <==> PrintsBack(data, used + 1, t)
  {
    hide Bit, Known, PrintElement;
    assert ([t.rest] + t.more)[1..] == t.more;
    Prepend(data, used, used + 1, t.used, [BOUNDARY], PrintRest(t.rest, t.more));
  }

  /** What was accepted prints as exactly the bytes consumed if and only if they were clean. */
  lemma {:induction false} ParseThenPrint(data: seq<Byte>, used: nat, empty: bool)
    requires used <= |data| && ParseTail(data, used, empty).Tail?
    ensures PrintsBack(data, used, ParseTail(data, used, empty)) <==> Clean(data, used)
    decreases |data| - used
  {
    hide Bit, Known, ReadElement, CleanElement, PrintElement;
    if used < |data| && data[used] == BOUNDARY {
      ParseThenPrint(data, used + 1, true);
      hide PrintsBack;
      BoundaryPrinted(data, used, ParseTail(data, used + 1, true));
    } else if used < |data| && data[used] != NONE {
      var e := ReadElement(data, data[used], used + 1);
      ParseThenPrint(data, e.used, false);
      hide PrintsBack;
      ElementPrinted(data, used, ParseTail(data, e.used, false));
    }
  }

  lemma Prepend(data: seq<Byte>, from: nat, mid: nat, to: nat, a: seq<Byte>, b: seq<Byte>)
    requires from <= mid <= to <= |data| && a == data[from..mid]
    ensures a + b == data[from..to] <==> b == data[mid..to]
  {
    assert data[from..to] == data[from..mid] + data[mid..to];
    if a + b == data[from..to] {
      assert b == (a + b)[|a|..] && data[mid..to] == data[from..to][|a|..];
    }
  }

  lemma Betrayed(data: seq<Byte>, used: nat, t: Tail, e: Element, after: seq<Byte>)
    requires t.Tail? && used < t.used <= |data|
    requires e.tag != data[used] || used + |PrintElement(e)| > |data|
    ensures PrintElement(e) + after != data[used..t.used]
  {
    assert (PrintElement(e) + after)[0] == e.tag;
    assert data[used..t.used][0] == data[used];
  }

  /** Re-printing an accepted set gives back the consumed bytes exactly for clean input. */
  lemma Reprint(data: seq<Byte>, start: nat)
    requires start <= |data| && ParsedFrom(data, start).Parsed?
    ensures var r := ParsedFrom(data, start); Printed(r.paths) == data[start..r.used] <==> Clean(data, start)
  {
    hide Bit, Known, ReadElement, CleanElement, PrintElement;
    ParseThenPrint(data, start, true);
    hide ParseTail, Clean;
    var t := ParseTail(data, start, true);
    var r := ParsedFrom(data, start);
    assert r.paths == [[] + t.rest] + t.more && [] + t.rest == t.rest;
    assert r.paths[1..] == t.more;
  }

  /**
   * A lone currency tag, with neither the currency nor the terminator behind
   * it, is accepted as one element, and does not print back.
   */
  lemma TruncatedIsAccepted()
    ensures var data: seq<Byte> := [CURRENCY];
            && ParsedFrom(data, 0) == Parsed([[Inferred(ZERO20, Currency(ZERO20), ZERO20, true)]], 1)
            && !Clean(data, 0) && Printed(ParsedFrom(data, 0).paths) != data
  {
    var data: seq<Byte> := [CURRENCY];
    var e := ReadElement(data, CURRENCY, 1);
    assert ParseTail(data, 1, false) == Tail([], [], 1);
    assert ParseTail(data, 0, true) == Consed(e.value, Tail([], [], 1));
    assert e.value == Inferred(ZERO20, Currency(ZERO20), ZERO20, true);
    assert [] + ([e.value] + []) == [e.value] && [] + [[e.value]] + [] == [[e.value]];
    Reprint(data, 0);
    assert data[0..1] == data;
  }

  /**
   * A currency cut short is read as zeros and its bytes are read again, as
   * whatever follows: the cursor does not move past the tag.
   */
  lemma CutShortIsReread(data: seq<Byte>, used: nat, empty: bool)
    requires used < |data| < used + 21 && data[used] == CURRENCY
    ensures ParseTail(data, used, empty) ==
            Consed(Inferred(ZERO20, Currency(ZERO20), ZERO20, true), ParseTail(data, used + 1, false))
  {
    var e := ReadElement(data, CURRENCY, used + 1);
    assert e == Cursor(Inferred(ZERO20, Currency(ZERO20), ZERO20, true), used + 1);
  }

  // ----- equality and the printed form --------------------------------------------------------

  /** Element equality: the account bit and the values, not the asset bits. */
  predicate Same(a: Element, b: Element) {
    && Bit(a.tag, ACCOUNT) == Bit(b.tag, ACCOUNT)
    && a.account == b.account && a.asset == b.asset && a.issuer == b.issuer
  }

  predicate HasAsset(e: Element) { Bit(e.tag, CURRENCY) || Bit(e.tag, MPT) }

  /**
   * Equal elements print alike exactly when their tags are the same; inferred
   * ones, exactly when both or neither show their asset.
   */
  lemma SameIsNotPrinted(a: Element, b: Element)
    requires Same(a, b)
    ensures PrintElement(a) == PrintElement(b) <==> a.tag == b.tag
    ensures IsInferred(a) && IsInferred(b) ==> (a.tag == b.tag <==> HasAsset(a) == HasAsset(b))
  {
    assert PrintElement(a)[0] == a.tag && PrintElement(b)[0] == b.tag;
  }

  /** A forced XRP element equals the unforced one but prints 20 bytes more. */
  lemma ForcedXrpPrintsLonger(account: Bytes20)
    requires account != ZERO20
    ensures var plain, forced := Inferred(account, Currency(ZERO20), ZERO20, false), Inferred(account, Currency(ZERO20), ZERO20, true);
            Same(plain, forced) && |PrintElement(forced)| == |PrintElement(plain)| + 20
  {
  }

  predicate SamePath(a: Path, b: Path) {
    |a| == |b| && forall i :: 0 <= i < |a| ==> Same(a[i], b[i])
  }

  ghost predicate NoRepeats(paths: seq<Path>) {
    forall i, j :: 0 <= i < j < |paths| ==> !SamePath(paths[i], paths[j])
  }

  /** `assemble_add`: appends the extended path unless an equal one is there. */
  method AssembleAdd(paths: seq<Path>, base: Path, tail: Element) returns (after: seq<Path>, added: bool)
    ensures added <==> forall i :: 0 <= i < |paths| ==> !SamePath(paths[i], base + [tail])
    ensures after == if added then paths + [base + [tail]] else paths
    ensures NoRepeats(paths) ==> NoRepeats(after)
  {
    var extended := base + [tail];
    for i := 0 to |paths|
      invariant forall j :: 0 <= j < i ==> !SamePath(paths[j], extended)
    {
      if SamePath(paths[i], extended) {
        return paths, false;
      }
    }
    return paths + [extended], true;
  }
}
