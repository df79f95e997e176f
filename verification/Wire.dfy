/**
  The wire format of include/net/Serialize.hpp: little-endian integers and length-prefixed bytes.

  A format describes the shape of a value.  `Enc` is what the writer appends for a value, `Dec` what
  the reader makes of a buffer: the value and the bytes left over, or None once a read has failed.
  Round trip, canonicity, prefix rejection and the bound on work are proved once, for every format.
 */
module Wire {
  import opened Arithmetic
  import opened Tasks

  // ---------------------------------------------------------------- integers

  function Pow256(n: nat): (p: nat)
    ensures p > 0
  {
    if n == 0 then 1 else 256 * Pow256(n - 1)
  }

  lemma Widths()
    ensures Pow256(1) == 0x100 && Pow256(2) == 0x1_0000 && Pow256(4) == 0x1_0000_0000
    ensures Pow256(8) == 0x1_0000_0000_0000_0000
  {
    assert Pow256(3) == 0x100_0000;
    assert Pow256(5) == 0x100_0000_0000 && Pow256(6) == 0x1_0000_0000_0000;
  }

  /** The low `n` bytes of `v`, least significant first; higher bytes are cut off, as a cast would. */
  function LE(v: nat, n: nat): (b: Bytes)
    ensures |b| == n
  {
    if n == 0 then [] else [v % 256] + LE(v / 256, n - 1)
  }

  function UnLE(b: Bytes): (v: nat)
    ensures v < Pow256(|b|)
  {
    if b == [] then 0 else b[0] + 256 * UnLE(b[1..])
  }

  lemma {:induction false} UnLEofLE(v: nat, n: nat)
    requires v < Pow256(n)
    ensures UnLE(LE(v, n)) == v
  {
    if n > 0 {
      UnLEofLE(v / 256, n - 1);
      assert LE(v, n)[1..] == LE(v / 256, n - 1);
    }
  }

  lemma {:induction false} LEofUnLE(b: Bytes)
    ensures LE(UnLE(b), |b|) == b
  {
    if b != [] {
      LEofUnLE(b[1..]);
      assert UnLE(b) % 256 == b[0] && UnLE(b) / 256 == UnLE(b[1..]);
      assert b == [b[0]] + b[1..];
    }
  }

  /** `v >> 8 * i` */
  function ShiftRight(v: nat, i: nat): nat {
    if i == 0 then v else ShiftRight(v / 256, i - 1)
  }

  lemma {:induction false} LEByte(v: nat, n: nat, i: nat)
    requires i < n
    ensures LE(v, n)[i] == ShiftRight(v, i) % 256
  {
    if i > 0 {
      LEByte(v / 256, n - 1, i - 1);
    }
  }

  lemma {:induction false} UnLEAppend(b: Bytes, x: byte)
    ensures UnLE(b + [x]) == UnLE(b) + x * Pow256(|b|)
  {
    if b == [] {
      assert [x][1..] == [];
    } else {
      UnLEAppend(b[1..], x);
      assert (b + [x])[1..] == b[1..] + [x];
      assert 256 * (x * Pow256(|b| - 1)) == x * (256 * Pow256(|b| - 1));
    }
  }

  // ---------------------------------------------------------------- where a field is

  predicate PartAt(b: Bytes, at: nat, part: Bytes) {
    at + |part| <= |b| && b[at..at + |part|] == part
  }

  /** The bytes of `v`, least significant first. */
  ghost predicate LittleEndian(part: Bytes, v: nat) {
    v < Pow256(|part|) && forall i :: 0 <= i < |part| ==> part[i] == v / Pow256(i) % 256
  }

  /** The `width` bytes from offset `at` on are the integer `v`. */
  ghost predicate NumAt(b: Bytes, at: nat, width: nat, v: nat) {
    at + width <= |b| && LittleEndian(b[at..at + width], v)
  }

  /** From offset `at` on there is a 32-bit length and then the bytes `s`. */
  ghost predicate TextAt(b: Bytes, at: nat, s: Bytes) {
    NumAt(b, at, 4, |s|) && PartAt(b, at + 4, s)
  }

  lemma {:induction false} ShiftIsDivision(v: nat, i: nat)
    ensures ShiftRight(v, i) == v / Pow256(i)
  {
    if i > 0 {
      ShiftIsDivision(v / 256, i - 1);
      DivTwice(v, 256, Pow256(i - 1));
    }
  }

  /** Which byte of an integer goes where: `LE` is the positional notation to base 256, lowest digit first. */
  lemma LEisLittleEndian(part: Bytes, v: nat)
    requires v < Pow256(|part|)
    ensures part == LE(v, |part|) <==> LittleEndian(part, v)
  {
    forall i | 0 <= i < |part|
      ensures LE(v, |part|)[i] == v / Pow256(i) % 256
    {
      LEByte(v, |part|, i);
      ShiftIsDivision(v, i);
    }
    hide LE, Pow256;
  }

  lemma PartAppend(b: Bytes, at: nat, x: Bytes, y: Bytes)
    ensures PartAt(b, at, x + y) <==> PartAt(b, at, x) && PartAt(b, at + |x|, y)
  {
    var end := at + |x| + |y|;
    if end <= |b| {
      assert b[at..end] == b[at..at + |x|] + b[at + |x|..end];
      if b[at..end] == x + y {
        assert b[at..at + |x|] == b[at..end][..|x|] && b[at + |x|..end] == b[at..end][|x|..];
      }
    }
  }

  lemma NumPart(b: Bytes, at: nat, width: nat, v: nat)
    ensures NumAt(b, at, width, v) <==> v < Pow256(width) && PartAt(b, at, LE(v, width))
  {
    if at + width <= |b| && v < Pow256(width) {
      LEisLittleEndian(b[at..at + width], v);
    }
    hide LE;
  }

  lemma NumThen(b: Bytes, at: nat, width: nat, v: nat, rest: Bytes)
    ensures NumAt(b, at, width, v) && PartAt(b, at + width, rest) <==>
            v < Pow256(width) && PartAt(b, at, LE(v, width) + rest)
    ensures NumAt(b, at, width, v) || PartAt(b, at, LE(v, width) + rest) ==> at + width <= |b|
  {
    NumPart(b, at, width, v);
    PartAppend(b, at, LE(v, width), rest);
  }

  function Text(s: Bytes): Bytes {
    LE(|s|, 4) + s
  }

  lemma TextPart(b: Bytes, at: nat, s: Bytes)
    ensures |Text(s)| == 4 + |s|
    ensures TextAt(b, at, s) <==> |s| < Pow256(4) && PartAt(b, at, Text(s))
  {
    hide LE;
    NumThen(b, at, 4, |s|, s);
  }

  lemma TextThen(b: Bytes, at: nat, s: Bytes, rest: Bytes)
    ensures |Text(s)| == 4 + |s|
    ensures TextAt(b, at, s) && PartAt(b, at + 4 + |s|, rest) <==> |s| < Pow256(4) && PartAt(b, at, Text(s) + rest)
  {
    TextPart(b, at, s);
    PartAppend(b, at, Text(s), rest);
  }

  // ---------------------------------------------------------------- formats

  datatype Fmt = UInt(width: nat) | Blob | Pair(first: Fmt, second: Fmt) | List(elem: Fmt)

  datatype Val = Num(n: nat) | Raw(bytes: Bytes) | Both(left: Val, right: Val) | Items(items: seq<Val>)

  /** The value has the shape of the format, and its integers fit their fields. */
  ghost predicate Conforms(f: Fmt, v: Val) {
    match f
    case UInt(w) => v.Num? && v.n < Pow256(w)
    case Blob => v.Raw?
    case Pair(g, h) => v.Both? && Conforms(g, v.left) && Conforms(h, v.right)
    case List(e) => v.Items? && forall i :: 0 <= i < |v.items| ==> Conforms(e, v.items[i])
  }

  /** It conforms and every length fits the 32-bit prefix that announces it. */
  ghost predicate Fits(f: Fmt, v: Val) {
    match f
    case UInt(w) => v.Num? && v.n < Pow256(w)
    case Blob => v.Raw? && |v.bytes| < Pow256(4)
    case Pair(g, h) => v.Both? && Fits(g, v.left) && Fits(h, v.right)
    case List(e) => v.Items? && |v.items| < Pow256(4) && forall i :: 0 <= i < |v.items| ==> Fits(e, v.items[i])
  }

  ghost function Enc(f: Fmt, v: Val): Bytes
    requires Conforms(f, v)
    decreases f, 0
  {
    match f
    case UInt(w) => LE(v.n, w)
    case Blob => LE(|v.bytes|, 4) + v.bytes
    case Pair(g, h) => Enc(g, v.left) + Enc(h, v.right)
    case List(e) => LE(|v.items|, 4) + EncAll(e, v.items)
  }

  ghost function EncAll(e: Fmt, vs: seq<Val>): Bytes
    requires forall i :: 0 <= i < |vs| ==> Conforms(e, vs[i])
    decreases e, 1, |vs|
  {
    if vs == [] then [] else Enc(e, vs[0]) + EncAll(e, vs[1..])
  }

  ghost function Dec(f: Fmt, b: Bytes): Option<(Val, Bytes)>
    decreases f, 0
  {
    match f
    case UInt(w) =>
      if |b| < w then None else Some((Num(UnLE(b[..w])), b[w..]))
    case Blob =>
      if |b| < 4 || |b| - 4 < UnLE(b[..4]) then None
      else Some((Raw(b[4..4 + UnLE(b[..4])]), b[4 + UnLE(b[..4])..]))
    case Pair(g, h) =>
      var (v, b1) :- Dec(g, b);
      var (w, b2) :- Dec(h, b1);
      Some((Both(v, w), b2))
    case List(e) =>
      if |b| < 4 then None else
      var (vs, rest) :- DecAll(e, UnLE(b[..4]), b[4..]);
      Some((Items(vs), rest))
  }

  ghost function DecAll(e: Fmt, count: nat, b: Bytes): Option<(seq<Val>, Bytes)>
    decreases e, 1, count
  {
    if count == 0 then Some(([], b)) else
    var (v, b1) :- Dec(e, b);
    var (vs, b2) :- DecAll(e, count - 1, b1);
    Some(([v] + vs, b2))
  }

  /** One level of each definition as rewriting rules, for formats nested deeper than Dafny unfolds by itself. */
  lemma ShapeRules()
    ensures forall w: nat, v {:trigger Conforms(UInt(w), v)} :: Conforms(UInt(w), v) <==> v.Num? && v.n < Pow256(w)
    ensures forall v {:trigger Conforms(Blob, v)} :: Conforms(Blob, v) <==> v.Raw?
    ensures forall g, h, v {:trigger Conforms(Pair(g, h), v)} ::
              Conforms(Pair(g, h), v) <==> v.Both? && Conforms(g, v.left) && Conforms(h, v.right)
    ensures forall w: nat, n: nat {:trigger Fits(UInt(w), Num(n))} :: Fits(UInt(w), Num(n)) <==> n < Pow256(w)
    ensures forall s {:trigger Fits(Blob, Raw(s))} :: Fits(Blob, Raw(s)) <==> |s| < Pow256(4)
    ensures forall g, h, v {:trigger Fits(Pair(g, h), v)} ::
              Fits(Pair(g, h), v) <==> v.Both? && Fits(g, v.left) && Fits(h, v.right)
  {}

  lemma ListRule(e: Fmt, vs: seq<Val>)
    ensures Conforms(List(e), Items(vs)) <==> forall i :: 0 <= i < |vs| ==> Conforms(e, vs[i])
    ensures Fits(List(e), Items(vs)) <==> |vs| < Pow256(4) && forall i :: 0 <= i < |vs| ==> Fits(e, vs[i])
  {}

  lemma RoundTripUInt(n: nat, w: nat, rest: Bytes)
    requires n < Pow256(w)
    ensures Dec(UInt(w), LE(n, w) + rest) == Some((Num(n), rest))
  {
    var b := LE(n, w) + rest;
    UnLEofLE(n, w);
    assert b[..w] == LE(n, w) && b[w..] == rest;
  }

  lemma RoundTripBlob(s: Bytes, rest: Bytes)
    requires |s| < Pow256(4)
    ensures Dec(Blob, LE(|s|, 4) + s + rest) == Some((Raw(s), rest))
  {
    var b := LE(|s|, 4) + s + rest;
    UnLEofLE(|s|, 4);
    hide LE, UnLE, Pow256;
    assert b[..4] == LE(|s|, 4);
    assert b[4..4 + |s|] == s && b[4 + |s|..] == rest;
  }

  lemma {:induction false} RoundTripPair(f: Fmt, v: Val, rest: Bytes)
    requires f.Pair? && Conforms(f, v) && Fits(f, v)
    ensures Dec(f, Enc(f, v) + rest) == Some((v, rest))
    decreases f, 0
  {
    var b1, b2 := Enc(f.first, v.left), Enc(f.second, v.right);
    RoundTrip(f.first, v.left, b2 + rest);
    RoundTrip(f.second, v.right, rest);
    assert Enc(f, v) + rest == b1 + (b2 + rest);
  }

  /** One level of the definitions, for pairs and for lists. */
  lemma DecPair(g: Fmt, h: Fmt, b: Bytes)
    requires Dec(Pair(g, h), b).Some?
    ensures Dec(g, b).Some? && Dec(h, Dec(g, b).value.1).Some?
    ensures Dec(Pair(g, h), b).value
         == (Both(Dec(g, b).value.0, Dec(h, Dec(g, b).value.1).value.0), Dec(h, Dec(g, b).value.1).value.1)
  {}

  lemma EncPair(g: Fmt, h: Fmt, v: Val, w: Val)
    requires Conforms(g, v) && Conforms(h, w)
    ensures Conforms(Pair(g, h), Both(v, w)) && Enc(Pair(g, h), Both(v, w)) == Enc(g, v) + Enc(h, w)
    ensures Fits(g, v) && Fits(h, w) ==> Fits(Pair(g, h), Both(v, w))
  {}

  lemma DecList(e: Fmt, b: Bytes)
    ensures Dec(List(e), b).Some? <==> |b| >= 4 && DecAll(e, UnLE(b[..4]), b[4..]).Some?
    ensures Dec(List(e), b).Some? ==>
              var (vs, rest) := DecAll(e, UnLE(b[..4]), b[4..]).value;
              Dec(List(e), b).value == (Items(vs), rest)
  {
    hide DecAll, UnLE;
  }

  lemma EncList(e: Fmt, vs: seq<Val>)
    requires forall i :: 0 <= i < |vs| ==> Conforms(e, vs[i])
    ensures Conforms(List(e), Items(vs)) && Enc(List(e), Items(vs)) == LE(|vs|, 4) + EncAll(e, vs)
    ensures Fits(List(e), Items(vs)) <==> |vs| < Pow256(4) && forall i :: 0 <= i < |vs| ==> Fits(e, vs[i])
  {
    hide EncAll, LE, Pow256;
  }

  lemma {:induction false} RoundTripList(f: Fmt, v: Val, rest: Bytes)
    requires f.List? && Conforms(f, v) && Fits(f, v)
    ensures Dec(f, Enc(f, v) + rest) == Some((v, rest))
    decreases f, 0
  {
    ListRule(f.elem, v.items);
    EncList(f.elem, v.items);
    hide *;
    var b, body := Enc(f, v) + rest, EncAll(f.elem, v.items);
    UnLEofLE(|v.items|, 4);
    RoundTripAll(f.elem, v.items, rest);
    assert b == LE(|v.items|, 4) + (body + rest);
    assert b[..4] == LE(|v.items|, 4) && b[4..] == body + rest;
    DecList(f.elem, b);
  }

  /** Decoding an encoding gives the value back and stops exactly at its end. */
  lemma {:induction false} RoundTrip(f: Fmt, v: Val, rest: Bytes)
    requires Conforms(f, v) && Fits(f, v)
    ensures Dec(f, Enc(f, v) + rest) == Some((v, rest))
    decreases f, 1
  {
    match f
    case UInt(w) => RoundTripUInt(v.n, w, rest);
    case Blob => RoundTripBlob(v.bytes, rest);
    case Pair(_, _) => RoundTripPair(f, v, rest);
    case List(_) => RoundTripList(f, v, rest);
  }

  lemma {:induction false} RoundTripAll(e: Fmt, vs: seq<Val>, rest: Bytes)
    requires forall i :: 0 <= i < |vs| ==> Conforms(e, vs[i]) && Fits(e, vs[i])
    ensures DecAll(e, |vs|, EncAll(e, vs) + rest) == Some((vs, rest))
    decreases e, 2, |vs|
  {
    hide Enc, Dec, Conforms, Fits;
    if vs == [] {
      assert EncAll(e, vs) + rest == rest;
    } else {
      var more := EncAll(e, vs[1..]) + rest;
      RoundTrip(e, vs[0], more);
      RoundTripAll(e, vs[1..], rest);
      assert EncAll(e, vs) + rest == Enc(e, vs[0]) + more;
      assert vs == [vs[0]] + vs[1..];
    }
  }

  lemma CanonicalUInt(w: nat, b: Bytes)
    requires Dec(UInt(w), b).Some?
    ensures var (v, rest) := Dec(UInt(w), b).value;
            v.Num? && v.n < Pow256(w) && b == LE(v.n, w) + rest
  {
    LEofUnLE(b[..w]);
  }

  lemma CanonicalBlob(b: Bytes)
    requires Dec(Blob, b).Some?
    ensures var (v, rest) := Dec(Blob, b).value;
            v.Raw? && |v.bytes| < Pow256(4) && b == LE(|v.bytes|, 4) + v.bytes + rest
  {
    LEofUnLE(b[..4]);
    hide LE, UnLE, Pow256;
    assert b == b[..4] + b[4..4 + UnLE(b[..4])] + b[4 + UnLE(b[..4])..];
  }

  lemma {:induction false} CanonicalPair(f: Fmt, b: Bytes)
    requires f.Pair? && Dec(f, b).Some?
    ensures var (v, rest) := Dec(f, b).value;
            Fits(f, v) && Conforms(f, v) && b == Enc(f, v) + rest
    decreases f, 0
  {
    hide *;
    DecPair(f.first, f.second, b);
    var (v, b1) := Dec(f.first, b).value;
    var (w, b2) := Dec(f.second, b1).value;
    Canonical(f.first, b);
    Canonical(f.second, b1);
    EncPair(f.first, f.second, v, w);
    assert Enc(f.first, v) + (Enc(f.second, w) + b2) == Enc(f.first, v) + Enc(f.second, w) + b2;
  }

  lemma {:induction false} CanonicalList(f: Fmt, b: Bytes)
    requires f.List? && Dec(f, b).Some?
    ensures var (v, rest) := Dec(f, b).value;
            Fits(f, v) && Conforms(f, v) && b == Enc(f, v) + rest
    decreases f, 0
  {
    hide *;
    DecList(f.elem, b);
    LEofUnLE(b[..4]);
    var body := b[4..];
    CanonicalAll(f.elem, UnLE(b[..4]), body);
    var (vs, rest) := DecAll(f.elem, UnLE(b[..4]), body).value;
    EncList(f.elem, vs);
    assert b == b[..4] + (EncAll(f.elem, vs) + rest);
    assert b[..4] + (EncAll(f.elem, vs) + rest) == b[..4] + EncAll(f.elem, vs) + rest;
  }

  /** Whatever decodes is the encoding of the decoded value, byte for byte, and of nothing else. */
  lemma {:induction false} Canonical(f: Fmt, b: Bytes)
    requires Dec(f, b).Some?
    ensures var (v, rest) := Dec(f, b).value;
            Fits(f, v) && Conforms(f, v) && b == Enc(f, v) + rest
    decreases f, 1
  {
    match f
    case UInt(w) => CanonicalUInt(w, b);
    case Blob => CanonicalBlob(b);
    case Pair(_, _) => CanonicalPair(f, b);
    case List(_) => CanonicalList(f, b);
  }

  lemma {:induction false} CanonicalAll(e: Fmt, count: nat, b: Bytes)
    requires DecAll(e, count, b).Some?
    ensures var (vs, rest) := DecAll(e, count, b).value;
            && |vs| == count
            && (forall i :: 0 <= i < |vs| ==> Fits(e, vs[i]) && Conforms(e, vs[i]))
            && b == EncAll(e, vs) + rest
    decreases e, 2, count
  {
    hide Enc, Dec, Conforms, Fits;
    if count > 0 {
      Canonical(e, b);
      var (v, b1) := Dec(e, b).value;
      CanonicalAll(e, count - 1, b1);
      var (vs, rest) := DecAll(e, count - 1, b1).value;
      assert ([v] + vs)[1..] == vs;
    }
  }

  /** A value survives the trip exactly when its lengths fit their 32-bit prefixes. */
  lemma RoundTripIff(f: Fmt, v: Val)
    requires Conforms(f, v)
    ensures Dec(f, Enc(f, v)) == Some((v, [])) <==> Fits(f, v)
  {
    assert Enc(f, v) + [] == Enc(f, v);
    if Fits(f, v) {
      RoundTrip(f, v, []);
    } else if Dec(f, Enc(f, v)) == Some((v, [])) {
      Canonical(f, Enc(f, v));
    }
  }

  /** Bytes after the decoded value never change what was decoded. */
  lemma ExtraBytesIgnored(f: Fmt, b: Bytes, tail: Bytes)
    requires Dec(f, b).Some?
    ensures Dec(f, b + tail) == Some((Dec(f, b).value.0, Dec(f, b).value.1 + tail))
  {
    hide *;
    Canonical(f, b);
    var (w, rest) := Dec(f, b).value;
    RoundTrip(f, w, rest + tail);
    assert Enc(f, w) + rest + tail == Enc(f, w) + (rest + tail);
  }

  /** No strict prefix of an encoding decodes. */
  lemma PrefixRejected(f: Fmt, v: Val, p: Bytes)
    requires Fits(f, v) && Conforms(f, v)
    requires p < Enc(f, v)
    ensures Dec(f, p).None?
  {
    var whole := Enc(f, v);
    RoundTrip(f, v, []);
    hide Enc, Dec, Fits, Conforms;
    assert whole + [] == whole;
    var tail := whole[|p|..];
    assert p + tail == whole;
    if Dec(f, p).Some? {
      ExtraBytesIgnored(f, p, tail);
    }
  }

  /** No encoding is a prefix of another, so a buffer starts with at most one value. */
  lemma UniquelyDecodable(f: Fmt, v: Val, w: Val, b: Bytes)
    requires Fits(f, v) && Conforms(f, v) && Fits(f, w) && Conforms(f, w)
    requires Enc(f, v) <= b && Enc(f, w) <= b
    ensures v == w
  {
    RoundTrip(f, v, b[|Enc(f, v)|..]);
    RoundTrip(f, w, b[|Enc(f, w)|..]);
    assert b == Enc(f, v) + b[|Enc(f, v)|..] == Enc(f, w) + b[|Enc(f, w)|..];
  }

  /** The fewest bytes a value of the format can take. */
  function MinSize(f: Fmt): nat {
    match f
    case UInt(w) => w
    case Blob => 4
    case Pair(g, h) => MinSize(g) + MinSize(h)
    case List(_) => 4
  }

  lemma {:induction false} ConsumesAtLeast(f: Fmt, b: Bytes)
    requires Dec(f, b).Some?
    ensures |b| - |Dec(f, b).value.1| >= MinSize(f)
    decreases f, 0
  {
    match f
    case UInt(_) =>
    case Blob =>
    case Pair(g, h) =>
      ConsumesAtLeast(g, b);
      ConsumesAtLeast(h, Dec(g, b).value.1);
    case List(e) =>
      Canonical(f, b);
  }

  /** The format has no length prefixes, so that every value of it takes the same number of bytes. */
  predicate Fixed(f: Fmt) {
    match f
    case UInt(_) => true
    case Pair(g, h) => Fixed(g) && Fixed(h)
    case _ => false
  }

  /** Of a fixed format any bytes are a value, if there are enough of them. */
  lemma {:induction false} FixedDecodes(f: Fmt, b: Bytes)
    requires Fixed(f) && |b| >= MinSize(f)
    ensures Dec(f, b).Some? && |Dec(f, b).value.1| == |b| - MinSize(f)
  {
    if f.Pair? {
      FixedDecodes(f.first, b);
      FixedDecodes(f.second, Dec(f.first, b).value.1);
    }
  }

  lemma {:induction false} EncAllAppend(e: Fmt, vs: seq<Val>, v: Val)
    requires Conforms(e, v) && forall i :: 0 <= i < |vs| ==> Conforms(e, vs[i])
    ensures EncAll(e, vs + [v]) == EncAll(e, vs) + Enc(e, v)
    decreases |vs|
  {
    hide Enc, Conforms;
    if vs == [] {
      assert [v][1..] == [];
    } else {
      EncAllAppend(e, vs[1..], v);
      assert (vs + [v])[1..] == vs[1..] + [v];
    }
  }

  /** The loop's view of a list: what is decoded so far, followed by what the rest decodes to. */
  ghost function Prepend(vs: seq<Val>, r: Option<(seq<Val>, Bytes)>): Option<(seq<Val>, Bytes)> {
    var (ws, rest) :- r;
    Some((vs + ws, rest))
  }

  lemma PrependStep(e: Fmt, vs: seq<Val>, count: nat, b: Bytes)
    requires count > 0
    ensures Dec(e, b).None? ==> Prepend(vs, DecAll(e, count, b)).None?
    ensures Dec(e, b).Some? ==>
              var (v, b1) := Dec(e, b).value;
              Prepend(vs, DecAll(e, count, b)) == Prepend(vs + [v], DecAll(e, count - 1, b1))
  {
    if Dec(e, b).Some? {
      var (v, b1) := Dec(e, b).value;
      if DecAll(e, count - 1, b1).Some? {
        var (ws, _) := DecAll(e, count - 1, b1).value;
        assert vs + ([v] + ws) == (vs + [v]) + ws;
      }
    }
  }

  // ---------------------------------------------------------------- the writer

  class ByteWriter {
    var buf: Bytes

    constructor ()
      ensures buf == []
    {
      buf := [];
    }

    /** `u8`, `u16`, `u32` and `u64` are this loop with 1, 2, 4 and 8 bytes. */
    method UInt(v: nat, width: nat)
      modifies this
      ensures buf == old(buf) + LE(v, width)
    {
      var i := 0;
      while i < width
        invariant i <= width
        invariant buf == old(buf) + LE(v, width)[..i]
      {
        LEByte(v, width, i);
        buf := buf + [ShiftRight(v, i) % 256];
        i := i + 1;
      }
      assert LE(v, width)[..width] == LE(v, width);
    }

    method RawBytes(bytes: Bytes)
      modifies this
      ensures buf == old(buf) + bytes
    {
      buf := buf + bytes;
    }

    /** `str` and `blob`: the length cut to 32 bits, then all the bytes. */
    method Blob(bytes: Bytes)
      modifies this
      ensures buf == old(buf) + Enc(Fmt.Blob, Raw(bytes))
    {
      UInt(|bytes|, 4);
      RawBytes(bytes);
    }
  }

  // ---------------------------------------------------------------- the reader

  class ByteReader {
    const data: Bytes
    var pos: nat
    var ok: bool

    /** The bytes still to be read; None once any read has failed. */
    ghost var left: Option<Bytes>

    ghost predicate Valid()
      reads this
    {
      pos <= |data| && ok == left.Some? && (ok ==> left.value == data[pos..])
    }

    constructor (data: Bytes)
      ensures Valid() && left == Some(data) && this.data == data
    {
      this.data := data;
      pos, ok := 0, true;
      left := Some(data);
    }

    /** Failure is sticky: once `ok` is false it stays false and `pos` never moves again. */
    method Need(n: nat) returns (enough: bool)
      requires Valid()
      modifies this`ok, this`left
      ensures Valid() && enough == ok == (old(ok) && pos + n <= |data|)
      ensures ok ==> left == old(left)
    {
      if !ok || pos + n > |data| {
        ok := false;
        left := None;
        return false;
      }
      return true;
    }

    /** `u8`, `u16`, `u32` and `u64`; zero and failure when the bytes are not there. */
    method UInt(width: nat) returns (v: nat)
      requires Valid()
      modifies this
      ensures Valid() && old(pos) <= pos && v < Pow256(width)
      ensures left == Rest(old(left), Fmt.UInt(width))
      ensures left.Some? ==> Read(old(left), Fmt.UInt(width)) == Num(v)
      ensures left.None? ==> v == 0 && pos == old(pos)
    {
      var enough := Need(width);
      if !enough {
        return 0;
      }
      ghost var b := data[pos..];
      v := 0;
      var i := 0;
      while i < width
        invariant i <= width && ok && pos == old(pos) && left == Some(b) && Valid()
        invariant v == UnLE(b[..i])
      {
        var x := data[pos + i];
        UnLEAppend(b[..i], x);
        assert b[..i + 1] == b[..i] + [x];
        v := v + x * Pow256(i);
        i := i + 1;
      }
      pos := pos + width;
      left := Some(b[width..]);
    }

    /** `str` and `blob`; empty and failure when the announced bytes are not there. */
    method Blob() returns (bytes: Bytes)
      requires Valid()
      modifies this
      ensures Valid() && old(pos) <= pos
      ensures left == Rest(old(left), Fmt.Blob)
      ensures left.Some? ==> Read(old(left), Fmt.Blob) == Raw(bytes)
      ensures left.None? ==> bytes == []
    {
      ghost var b := data[pos..];
      var n := UInt(4);
      var enough := Need(n);
      if !enough {
        return [];
      }
      bytes := data[pos..pos + n];
      pos := pos + n;
      left := Some(data[pos..]);
      assert b[4..4 + n] == bytes && b[4 + n..] == data[pos..];
    }

    method Ok() returns (r: bool)
      requires Valid()
      ensures r == left.Some?
    {
      r := ok;
    }
  }

  /** What a read of format `f` leaves of the reader's state, and what it returns when it succeeds. */
  ghost function Rest(s: Option<Bytes>, f: Fmt): Option<Bytes> {
    var b :- s;
    var (_, rest) :- Dec(f, b);
    Some(rest)
  }

  ghost function Read(s: Option<Bytes>, f: Fmt): Val
    requires Rest(s, f).Some?
  {
    Dec(f, s.value).value.0
  }

  lemma ReadRule(f: Fmt, b: Bytes)
    ensures Rest(Some(b), f).Some? <==> Dec(f, b).Some?
    ensures Dec(f, b).Some? ==> Dec(f, b) == Some((Read(Some(b), f), Rest(Some(b), f).value))
    ensures Rest(None, f).None?
  {}

  /** Reading a pair is reading its parts one after the other. */
  lemma PairRules()
    ensures forall s: Option<Bytes>, g: Fmt, h: Fmt {:trigger Rest(s, Pair(g, h))} ::
              Rest(s, Pair(g, h)) == Rest(Rest(s, g), h)
    ensures forall s: Option<Bytes>, g: Fmt {:trigger Rest(s, g)} :: s.None? ==> Rest(s, g).None?
    ensures forall s: Option<Bytes>, g: Fmt, h: Fmt {:trigger Read(s, Pair(g, h))} :: Rest(s, Pair(g, h)).Some? ==>
              && Rest(s, g).Some?
              && Read(s, Pair(g, h)) == Both(Read(s, g), Read(Rest(s, g), h))
  {}

  // ---------------------------------------------------------------- the decoding loop

  /** What the whole list starting at `b` decodes to, by the count prefix at its front. */
  ghost function WholeList(e: Fmt, b: Bytes): Option<(seq<Val>, Bytes)> {
    if |b| < 4 then None else DecAll(e, UnLE(b[..4]), b[4..])
  }

  /** Having read `vs` with `todo` elements to go, the reader at `s` is on its way to the result for `b`. */
  ghost predicate OnTheWay(e: Fmt, b: Bytes, vs: seq<Val>, todo: nat, s: Option<Bytes>) {
    s.Some? && Prepend(vs, DecAll(e, todo, s.value)) == WholeList(e, b)
  }

  lemma ListStart(e: Fmt, b: Bytes)
    ensures Rest(Some(b), UInt(4)).None? ==> Rest(Some(b), List(e)).None?
    ensures Rest(Some(b), UInt(4)).Some? ==>
              && Read(Some(b), UInt(4)).Num?
              && OnTheWay(e, b, [], Read(Some(b), UInt(4)).n, Rest(Some(b), UInt(4)))
              && |Rest(Some(b), UInt(4)).value| <= |b|
  {
    var all := WholeList(e, b);
    if all.Some? {
      assert [] + all.value.0 == all.value.0;
    }
  }

  lemma ListStep(e: Fmt, b: Bytes, vs: seq<Val>, todo: nat, s: Option<Bytes>)
    requires OnTheWay(e, b, vs, todo, s) && todo > 0
    ensures Rest(s, e).None? ==> Rest(Some(b), List(e)).None?
    ensures Rest(s, e).Some? ==>
              && OnTheWay(e, b, vs + [Read(s, e)], todo - 1, Rest(s, e))
              && MinSize(e) + |Rest(s, e).value| <= |s.value|
  {
    PrependStep(e, vs, todo, s.value);
    if Dec(e, s.value).Some? {
      ConsumesAtLeast(e, s.value);
    }
  }

  lemma ListEnd(e: Fmt, b: Bytes, vs: seq<Val>, s: Option<Bytes>)
    requires OnTheWay(e, b, vs, 0, s)
    ensures Rest(Some(b), List(e)) == s && Read(Some(b), List(e)) == Items(vs)
  {
    assert vs + [] == vs;
  }
}
