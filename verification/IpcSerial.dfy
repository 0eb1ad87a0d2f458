/** ipc_serial.c: tag-length-value encoding of message payloads, driven by a format string. */
module IpcSerial {

  type Byte = b: int | 0 <= b < 256

  const WRAP: nat := 0x1_0000_0000

  /** A parameter: the bits of a number, or a C string that may be null. */
  datatype Arg = Num(bits: nat) | Null | Text(chars: seq<Byte>)

  datatype Outcome = Done(args: seq<Arg>) | Refused | Stray

  predicate IsSpace(c: char) { c == ' ' || c == '\t' || c == '\n' || c == '\r' }

  /** Size in bytes of a number of this format, or 0. */
  function Width(c: char): nat { if c == 'p' || c == 'q' then 8 else if c == 'i' || c == 'u' then 4 else 0 }

  predicate IsText(c: char) { c == 's' || c == 't' }

  predicate IsKnown(c: char) { Width(c) > 0 || IsText(c) }

  function Pow256(n: nat): (p: nat)
    ensures p > 0
  {
    if n == 0 then 1 else 256 * Pow256(n - 1)
  }

  /** The argument is what the format character asks for. */
  predicate Fits(c: char, a: Arg)
  {
    if Width(c) > 0 then a.Num? && a.bits < Pow256(Width(c))
    else IsText(c) && (a.Null? || (a.Text? && forall i :: 0 <= i < |a.chars| ==> a.chars[i] != 0))
  }

  /** The format's parameters, without white space. */
  function Params(fmt: seq<char>): seq<char>
  {
    if fmt == [] then [] else if IsSpace(fmt[0]) then Params(fmt[1..]) else [fmt[0]] + Params(fmt[1..])
  }

  predicate AllKnown(ps: seq<char>) { forall i :: 0 <= i < |ps| ==> IsKnown(ps[i]) }

  /** One argument of the right kind for each parameter. */
  predicate Matches(ps: seq<char>, args: seq<Arg>)
  {
    |args| == |ps| && forall i :: 0 <= i < |ps| && IsKnown(ps[i]) ==> Fits(ps[i], args[i])
  }

  // ---------------------------------------------------------------------------------------------
  // The wire format
  // ---------------------------------------------------------------------------------------------

  /** The low n bytes of v, lowest first. */
  function ToBytes(v: nat, n: nat): (s: seq<Byte>)
    ensures |s| == n
  {
    if n == 0 then [] else [v % 256] + ToBytes(v / 256, n - 1)
  }

  function FromBytes(s: seq<Byte>): nat { if s == [] then 0 else s[0] + 256 * FromBytes(s[1..]) }

  lemma {:induction false} BytesRoundTrip(v: nat, n: nat)
    requires v < Pow256(n)
    ensures FromBytes(ToBytes(v, n)) == v
  {
    if n > 0 {
      BytesRoundTrip(v / 256, n - 1);
      assert ToBytes(v, n)[1..] == ToBytes(v / 256, n - 1);
    }
  }

  function Payload(c: char, a: Arg): seq<Byte>
    requires IsKnown(c) && Fits(c, a)
  {
    if a.Num? then ToBytes(a.bits, Width(c)) else if a.Null? then [] else a.chars + [0]
  }

  function Tag(c: char): Byte { (c as int) % 256 }

  function Field(c: char, a: Arg): seq<Byte>
    requires IsKnown(c) && Fits(c, a)
  {
    [Tag(c)] + ToBytes(|Payload(c, a)|, 4) + Payload(c, a)
  }

  function Fields(ps: seq<char>, args: seq<Arg>): seq<Byte>
    requires AllKnown(ps) && Matches(ps, args)
  {
    if ps == [] then [] else Field(ps[0], args[0]) + Fields(ps[1..], args[1..])
  }

  /** The whole message. */
  function Encoded(fmt: seq<char>, args: seq<Arg>): seq<Byte>
    requires AllKnown(Params(fmt)) && Matches(Params(fmt), args)
  {
    ToBytes(|Params(fmt)|, 4) + Fields(Params(fmt), args)
  }

  // ---------------------------------------------------------------------------------------------
  // Decoding
  // ---------------------------------------------------------------------------------------------

  /** The bytes before the first zero, if there is one. */
  function UpToNul(s: seq<Byte>): seq<Byte>
    requires 0 in s
  {
    if s[0] == 0 then [] else [s[0]] + UpToNul(s[1..])
  }

  datatype Read = Got(arg: Arg, next: nat) | Bad | Astray

  /** one_read: the field at `off`; offsets are 32-bit numbers. */
  function ReadField(buf: seq<Byte>, off: nat, c: char): (r: Read)
    requires |buf| < WRAP && off < WRAP
    ensures r.Got? ==> r.next < WRAP
  {
    if (off + 5) % WRAP > |buf| then Bad
    else if off + 5 > |buf| then Astray
    else
      var len := FromBytes(buf[off + 1..off + 5]);
      var at := off + 5;
      var end := (at + len) % WRAP;
      if end > |buf| || buf[off] != Tag(c) then Bad
      else if Width(c) > 0 then
        if len != Width(c) then Bad else if at + len > |buf| then Astray else Got(Num(FromBytes(buf[at..at + len])), end)
      else if IsText(c) then
        if len == 0 then Got(Null, end)
        else
          var last := (at + len - 1) % WRAP;
          if last >= |buf| then Astray
          else if buf[last] != 0 then Bad
          else if 0 in buf[at..] then Got(Text(UpToNul(buf[at..])), end)
          else Astray
      else Bad
  }

  /** The rest of the decoding loop. */
  function ReadFields(buf: seq<Byte>, off: nat, ps: seq<char>): Outcome
    requires |buf| < WRAP && off < WRAP
    decreases |ps|
  {
    if ps == [] then (if off == |buf| then Done([]) else Refused)
    else match ReadField(buf, off, ps[0])
      case Bad => Refused
      case Astray => Stray
      case Got(a, next) =>
        match ReadFields(buf, next, ps[1..])
        case Done(rest) => Done([a] + rest)
        case Refused => Refused
        case Stray => Stray
  }

  lemma {:induction false} UpToNulOk(s: seq<Byte>, rest: seq<Byte>)
    requires forall i :: 0 <= i < |s| ==> s[i] != 0
    ensures 0 in s + [0] + rest && UpToNul(s + [0] + rest) == s
  {
    assert (s + [0] + rest)[|s|] == 0;
    if s != [] {
      UpToNulOk(s[1..], rest);
      assert (s + [0] + rest)[1..] == s[1..] + [0] + rest;
    }
  }

  /** The parts of a field in a buffer. */
  lemma FieldParts(buf: seq<Byte>, off: nat, tag: Byte, len: seq<Byte>, body: seq<Byte>)
    requires |len| == 4 && off + 5 + |body| <= |buf| && buf[off..off + 5 + |body|] == [tag] + len + body
    ensures buf[off] == tag && buf[off + 1..off + 5] == len && buf[off + 5..off + 5 + |body|] == body
  {
    var f := [tag] + len + body;
    Slice(buf, off, f, 0, 1);
    Slice(buf, off, f, 1, 5);
    Slice(buf, off, f, 5, |f|);
    assert f[0..1] == [tag] && f[1..5] == len && f[5..|f|] == body;
    assert buf[off] == buf[off..off + 1][0];
  }

  lemma Slice(buf: seq<Byte>, off: nat, f: seq<Byte>, i: nat, j: nat)
    requires off + |f| <= |buf| && buf[off..off + |f|] == f && i <= j <= |f|
    ensures buf[off + i..off + j] == f[i..j]
  {
    var a, b := buf[off + i..off + j], f[i..j];
    forall k | 0 <= k < |a|
      ensures a[k] == b[k]
    {
      assert f[i + k] == buf[off..off + |f|][i + k];
    }
  }

  lemma HeadAndTail(head: seq<Byte>, tail: seq<Byte>)
    requires |head| == 4
    ensures (head + tail)[..4] == head && (head + tail)[4..] == tail
  {
  }

  lemma WrappedSum(size: nat, more: nat)
    ensures (size % WRAP + more) % WRAP == (size + more) % WRAP
  {
  }

  /** A string with its terminator is read back. */
  lemma TextParts(buf: seq<Byte>, at: nat, chars: seq<Byte>)
    requires at + |chars| + 1 <= |buf| && buf[at..at + |chars| + 1] == chars + [0] && forall i :: 0 <= i < |chars| ==> chars[i] != 0
    ensures buf[at + |chars|] == 0 && 0 in buf[at..] && UpToNul(buf[at..]) == chars
  {
    var rest := buf[at + |chars| + 1..];
    assert buf[at..] == buf[at..at + |chars| + 1] + rest;
    assert (chars + [0])[|chars|] == 0;
    UpToNulOk(chars, rest);
  }

  datatype Key = Key
  ghost predicate OpenRead(k: Key) { true }

  /** The field at `off` reads as argument a and ends at `next` (folded). */
  ghost predicate ReadsAs(buf: seq<Byte>, off: nat, c: char, a: Arg, next: nat)
    requires |buf| < WRAP && off < WRAP
  {
    forall k: Key {:trigger OpenRead(k)} :: OpenRead(k) ==> ReadField(buf, off, c) == Got(a, next)
  }

  /** What one_read does with a field whose parts are known. */
  lemma ReadParts(buf: seq<Byte>, off: nat, c: char, a: Arg, len: nat)
    requires |buf| < WRAP && off + 5 + len <= |buf| && IsKnown(c) && buf[off] == Tag(c) && FromBytes(buf[off + 1..off + 5]) == len
    requires Width(c) > 0 ==> len == Width(c) && a == Num(FromBytes(buf[off + 5..off + 5 + len]))
    requires Width(c) == 0 && len == 0 ==> a == Null
    requires Width(c) == 0 && len > 0 ==> buf[off + 5 + len - 1] == 0 && 0 in buf[off + 5..] && a == Text(UpToNul(buf[off + 5..]))
    ensures ReadsAs(buf, off, c, a, off + 5 + len)
  {
    assert (off + 5 + len) % WRAP == off + 5 + len;
  }

  /** A field is read back as it was written, wherever it stands. */
  lemma FieldRoundTrip(buf: seq<Byte>, off: nat, c: char, a: Arg)
    requires IsKnown(c) && Fits(c, a) && |buf| < WRAP && off + |Field(c, a)| <= |buf| && buf[off..off + |Field(c, a)|] == Field(c, a)
    ensures ReadsAs(buf, off, c, a, off + |Field(c, a)|)
  {
    var body := Payload(c, a);
    FieldParts(buf, off, Tag(c), ToBytes(|body|, 4), body);
    LengthRoundTrip(|body|);
    if a.Num? {
      BytesRoundTrip(a.bits, Width(c));
    } else if a.Text? {
      TextParts(buf, off + 5, a.chars);
    }
    ReadParts(buf, off, c, a, |body|);
  }

  lemma LengthRoundTrip(n: nat)
    requires n < WRAP
    ensures FromBytes(ToBytes(n, 4)) == n
  {
    assert Pow256(4) == 256 * Pow256(3) && Pow256(3) == 256 * Pow256(2) && Pow256(2) == 256 * Pow256(1) && Pow256(1) == 256;
    BytesRoundTrip(n, 4);
  }

  ghost predicate OpenAll(k: Key) { true }

  /** The fields from `off` to the end read as the arguments (folded). */
  ghost predicate ReadsAll(buf: seq<Byte>, off: nat, ps: seq<char>, args: seq<Arg>)
    requires |buf| < WRAP && off < WRAP
  {
    forall k: Key {:trigger OpenAll(k)} :: OpenAll(k) ==> ReadFields(buf, off, ps) == Done(args)
  }

  lemma {:induction false} FieldsRoundTrip(buf: seq<Byte>, off: nat, ps: seq<char>, args: seq<Arg>)
    requires AllKnown(ps) && Matches(ps, args) && off <= |buf| < WRAP && buf[off..] == Fields(ps, args)
    ensures ReadsAll(buf, off, ps, args)
    decreases |ps|
  {
    if ps == [] {
      assert args == [];
    } else {
      var next := FirstField(buf, off, ps, args);
      FieldsRoundTrip(buf, next, ps[1..], args[1..]);
      ReadsOn(buf, off, ps, args[0], next, args[1..]);
      assert [args[0]] + args[1..] == args;
    }
  }

  lemma FirstField(buf: seq<Byte>, off: nat, ps: seq<char>, args: seq<Arg>) returns (next: nat)
    requires AllKnown(ps) && Matches(ps, args) && off <= |buf| < WRAP && buf[off..] == Fields(ps, args) && ps != []
    ensures off <= next <= |buf| && AllKnown(ps[1..]) && Matches(ps[1..], args[1..]) && buf[next..] == Fields(ps[1..], args[1..])
    ensures ReadsAs(buf, off, ps[0], args[0], next)
  {
    var f := Field(ps[0], args[0]);
    next := off + |f|;
    Cut(buf, off, f, Fields(ps[1..], args[1..]));
    FieldRoundTrip(buf, off, ps[0], args[0]);
  }

  lemma Cut(buf: seq<Byte>, off: nat, f: seq<Byte>, rest: seq<Byte>)
    requires off <= |buf| && buf[off..] == f + rest
    ensures off + |f| <= |buf| && buf[off..off + |f|] == f && buf[off + |f|..] == rest
  {
    assert buf[off..off + |f|] == buf[off..][..|f|] && buf[off + |f|..] == buf[off..][|f|..];
  }

  lemma ReadsOn(buf: seq<Byte>, off: nat, ps: seq<char>, a: Arg, next: nat, rest: seq<Arg>)
    requires |buf| < WRAP && off < WRAP && next < WRAP && ps != []
    requires ReadsAs(buf, off, ps[0], a, next) && ReadsAll(buf, next, ps[1..], rest)
    ensures ReadsAll(buf, off, ps, [a] + rest)
  {
    assert OpenRead(Key) && OpenAll(Key);
  }

  /** ipc_serial_decode, as a function of the buffer. */
  function Decoded(buf: seq<Byte>, fmt: seq<char>): Outcome
    requires |buf| < WRAP
  {
    if |buf| < 4 || FromBytes(buf[..4]) != |Params(fmt)| % WRAP then Refused else ReadFields(buf, 4, Params(fmt))
  }

  // ---------------------------------------------------------------------------------------------
  // Which buffers decoding stays inside of
  // ---------------------------------------------------------------------------------------------

  /** The length field of the field at `off`. */
  function LengthAt(buf: seq<Byte>, off: nat): nat
    requires off + 5 <= |buf|
  {
    FromBytes(buf[off + 1..off + 5])
  }

  /** The end of the field at `off`, or of its head, does not fit in 32 bits. */
  predicate Wraps(buf: seq<Byte>, off: nat) { off + 5 >= WRAP || (off + 5 <= |buf| && off + 5 + LengthAt(buf, off) >= WRAP) }

  /** A field with the right tag whose length wraps around and that is read outside of the buffer all the same. */
  predicate LeadsAstray(buf: seq<Byte>, off: nat, c: char)
  {
    off + 5 >= WRAP ||
    (&& off + 5 <= |buf| && off + 5 + LengthAt(buf, off) >= WRAP && buf[off] == Tag(c)
     && var end := off + 5 + LengthAt(buf, off) - WRAP;
        && end <= |buf|
        && if Width(c) > 0 then LengthAt(buf, off) == Width(c)
           else IsText(c) && (end == 0 || (buf[end - 1] == 0 && 0 !in buf[off + 5..])))
  }

  /** Exactly such a field is read outside of the buffer; any other field that is accepted ends where its length says, unless that wraps. */
  lemma ReadsInside(buf: seq<Byte>, off: nat, c: char)
    requires off <= |buf| < WRAP
    ensures ReadField(buf, off, c).Astray? <==> LeadsAstray(buf, off, c)
    ensures ReadField(buf, off, c).Got? ==> off + 5 <= |buf| && (Wraps(buf, off) <==> ReadField(buf, off, c).next < off + 5)
    ensures ReadField(buf, off, c).Got? && !Wraps(buf, off) ==> ReadField(buf, off, c).next == off + 5 + LengthAt(buf, off) <= |buf|
  {
    if off + 5 < WRAP && off + 5 <= |buf| {
      var len := LengthAt(buf, off);
      LengthBound(buf[off + 1..off + 5]);
      assert (off + 5 + len) % WRAP == if off + 5 + len < WRAP then off + 5 + len else off + 5 + len - WRAP;
      if len > 0 {
        assert (off + 5 + len - 1) % WRAP == if off + 5 + len - 1 < WRAP then off + 5 + len - 1 else off + 5 + len - 1 - WRAP;
        if off + 5 + len - 1 < |buf| {
          assert buf[off + 5..][len - 1] == buf[off + 5 + len - 1];
        }
      }
    }
  }

  lemma {:induction false} LengthBelow(s: seq<Byte>)
    ensures FromBytes(s) < Pow256(|s|)
  {
    if s != [] {
      LengthBelow(s[1..]);
    }
  }

  lemma LengthBound(s: seq<Byte>)
    requires |s| == 4
    ensures FromBytes(s) < WRAP
  {
    assert Pow256(4) == 256 * Pow256(3) && Pow256(3) == 256 * Pow256(2) && Pow256(2) == 256 * Pow256(1) && Pow256(1) == 256;
    LengthBelow(s);
  }

  /** Following the length fields from `off` on, none wraps around. */
  predicate NoneWraps(buf: seq<Byte>, off: nat, ps: seq<char>)
    decreases |ps|
  {
    ps == [] ||
    (!Wraps(buf, off) && (off + 5 <= |buf| && off + 5 + LengthAt(buf, off) <= |buf| ==> NoneWraps(buf, off + 5 + LengthAt(buf, off), ps[1..])))
  }

  lemma {:induction false} FieldsInside(buf: seq<Byte>, off: nat, ps: seq<char>)
    requires off <= |buf| < WRAP && NoneWraps(buf, off, ps)
    ensures !ReadFields(buf, off, ps).Stray?
    decreases |ps|
  {
    if ps != [] {
      ReadsInside(buf, off, ps[0]);
      if ReadField(buf, off, ps[0]).Got? {
        FieldsInside(buf, ReadField(buf, off, ps[0]).next, ps[1..]);
      }
    }
  }

  /** Decoding stays inside the buffer if no length field on the way wraps around. */
  lemma DecodedInside(buf: seq<Byte>, fmt: seq<char>)
    requires |buf| < WRAP && NoneWraps(buf, 4, Params(fmt))
    ensures !Decoded(buf, fmt).Stray?
  {
    if |buf| >= 4 {
      FieldsInside(buf, 4, Params(fmt));
    }
  }

  /** Where the field at `off` ends, in 32 bits. */
  function EndAt(buf: seq<Byte>, off: nat): nat
    requires off + 5 <= |buf|
  {
    (off + 5 + LengthAt(buf, off)) % WRAP
  }

  /** The field at `off` is what the format character asks for, and by its end in 32 bits it is inside the buffer. */
  predicate Passes(buf: seq<Byte>, off: nat, c: char)
  {
    && off + 5 <= |buf| && EndAt(buf, off) <= |buf| && buf[off] == Tag(c)
    && if Width(c) > 0 then LengthAt(buf, off) == Width(c)
       else IsText(c) && (LengthAt(buf, off) > 0 ==> EndAt(buf, off) > 0 && buf[EndAt(buf, off) - 1] == 0)
  }

  lemma PassesRead(buf: seq<Byte>, off: nat, c: char)
    requires off <= |buf| < WRAP && !LeadsAstray(buf, off, c)
    ensures Passes(buf, off, c) <==> ReadField(buf, off, c).Got?
    ensures Passes(buf, off, c) ==> ReadField(buf, off, c).next == EndAt(buf, off)
  {
    ReadsInside(buf, off, c);
    if off + 5 <= |buf| && LengthAt(buf, off) > 0 {
      LengthBound(buf[off + 1..off + 5]);
      EndBefore(off + 5, LengthAt(buf, off));
    }
  }

  /** The byte before the end is the last byte. */
  lemma EndBefore(at: nat, len: nat)
    requires at < WRAP && 0 < len < WRAP
    ensures (at + len) % WRAP > 0 ==> (at + len - 1) % WRAP == (at + len) % WRAP - 1
    ensures (at + len) % WRAP == 0 ==> (at + len - 1) % WRAP == WRAP - 1
  {
    assert (at + len) % WRAP == if at + len < WRAP then at + len else at + len - WRAP;
  }

  /** Going from field to field, one leads astray before any is refused. */
  predicate SomeAstray(buf: seq<Byte>, off: nat, ps: seq<char>)
    decreases |ps|
  {
    ps != [] && (LeadsAstray(buf, off, ps[0]) || (Passes(buf, off, ps[0]) && SomeAstray(buf, EndAt(buf, off), ps[1..])))
  }

  lemma {:induction false} FieldsAstray(buf: seq<Byte>, off: nat, ps: seq<char>)
    requires off <= |buf| < WRAP
    ensures ReadFields(buf, off, ps).Stray? <==> SomeAstray(buf, off, ps)
    decreases |ps|
  {
    if ps != [] {
      ReadsInside(buf, off, ps[0]);
      if !LeadsAstray(buf, off, ps[0]) {
        PassesRead(buf, off, ps[0]);
        if Passes(buf, off, ps[0]) {
          FieldsAstray(buf, EndAt(buf, off), ps[1..]);
        }
      }
    }
  }

  /** Decoding reads outside of the buffer exactly if the count is right and some field leads astray after fields that pass. */
  lemma DecodedAstray(buf: seq<Byte>, fmt: seq<char>)
    requires |buf| < WRAP
    ensures Decoded(buf, fmt).Stray? <==> |buf| >= 4 && FromBytes(buf[..4]) == |Params(fmt)| % WRAP && SomeAstray(buf, 4, Params(fmt))
  {
    if |buf| >= 4 {
      FieldsAstray(buf, 4, Params(fmt));
    }
  }

  /** A message of nine bytes: one string, of length 0xFFFFFFF7. Its end wraps to 0, so its last byte is looked for at 0xFFFFFFFF. */
  function WrappedText(): (buf: seq<Byte>) { [1, 0, 0, 0, 115, 0xF7, 0xFF, 0xFF, 0xFF] }

  lemma WrappedTextStrays()
    ensures Decoded(WrappedText(), "s").Stray?
  {
    var buf := WrappedText();
    assert buf[..4] == [1, 0, 0, 0] && buf[5..9] == [0xF7, 0xFF, 0xFF, 0xFF];
    FourBytes(1, 0, 0, 0);
    FourBytes(0xF7, 0xFF, 0xFF, 0xFF);
    assert LengthAt(buf, 4) == 0xFFFF_FFF7;
    assert Params("s") == ['s'];
    assert LeadsAstray(buf, 4, 's');
    DecodedAstray(buf, "s");
  }

  lemma FourBytes(a: Byte, b: Byte, c: Byte, d: Byte)
    ensures FromBytes([a, b, c, d]) == (a as int) + 256 * b + 65536 * c + 16777216 * d
  {
    assert [a, b, c, d][1..] == [b, c, d] && [b, c, d][1..] == [c, d] && [c, d][1..] == [d] && [d][1..] == [];
    assert FromBytes([d]) == d;
    assert FromBytes([c, d]) == (c as int) + 256 * d;
    assert FromBytes([b, c, d]) == (b as int) + 256 * FromBytes([c, d]);
  }

  /** Decoding what was encoded, with the same format, gives the arguments back; null and empty strings stay apart. */
  lemma RoundTrip(fmt: seq<char>, args: seq<Arg>)
    requires AllKnown(Params(fmt)) && Matches(Params(fmt), args) && |Encoded(fmt, args)| < WRAP
    ensures Decoded(Encoded(fmt, args), fmt) == Done(args)
  {
    var ps := Params(fmt);
    FieldsAtLeast(ps, args);
    LengthRoundTrip(|ps|);
    HeadAndTail(ToBytes(|ps|, 4), Fields(ps, args));
    var buf := Encoded(fmt, args);
    FieldsRoundTrip(buf, 4, ps, args);
    DecodedDone(buf, fmt, ToBytes(|ps|, 4), args);
  }

  lemma DecodedDone(buf: seq<Byte>, fmt: seq<char>, head: seq<Byte>, args: seq<Arg>)
    requires 4 <= |buf| < WRAP && buf[..4] == head && FromBytes(head) == |Params(fmt)| && ReadsAll(buf, 4, Params(fmt), args)
    requires |Params(fmt)| < WRAP
    ensures Decoded(buf, fmt) == Done(args)
  {
    assert OpenAll(Key);
  }

  lemma {:induction false} FieldsAtLeast(ps: seq<char>, args: seq<Arg>)
    requires AllKnown(ps) && Matches(ps, args)
    ensures |Fields(ps, args)| >= 5 * |ps|
    decreases |ps|
  {
    if ps != [] {
      FieldsAtLeast(ps[1..], args[1..]);
    }
  }

  // ---------------------------------------------------------------------------------------------
  // Measuring and encoding
  // ---------------------------------------------------------------------------------------------

  lemma {:induction false} FieldsNext(ps: seq<char>, args: seq<Arg>, n: nat)
    requires n < |ps| && AllKnown(ps[..n + 1]) && Matches(ps, args)
    ensures Fields(ps[..n + 1], args[..n + 1]) == Fields(ps[..n], args[..n]) + Field(ps[n], args[n])
    decreases |ps|
  {
    if n == 0 {
      assert ps[..1][1..] == [] && args[..1][1..] == [];
    } else {
      assert ps[..n + 1][1..] == ps[1..][..n] && args[..n + 1][1..] == args[1..][..n];
      assert ps[..n][1..] == ps[1..][..n - 1] && args[..n][1..] == args[1..][..n - 1];
      assert AllKnown(ps[..n + 1][1..]);
      FieldsNext(ps[1..], args[1..], n - 1);
    }
  }

  ghost predicate OpenAt(k: Key) { true }

  /** From character i on, the format holds its parameters from n on; those before are known (folded). */
  ghost predicate At(fmt: seq<char>, i: nat, n: nat)
  {
    i <= |fmt| && n <= |Params(fmt)|
    && forall k: Key {:trigger OpenAt(k)} :: OpenAt(k) ==> Params(fmt[i..]) == Params(fmt)[n..] && AllKnown(Params(fmt)[..n])
  }

  lemma AtStart(fmt: seq<char>)
    ensures At(fmt, 0, 0)
  {
    assert fmt[0..] == fmt && Params(fmt)[0..] == Params(fmt);
  }

  lemma NextParam(fmt: seq<char>, i: nat)
    requires i < |fmt|
    ensures Params(fmt[i..]) == if IsSpace(fmt[i]) then Params(fmt[i + 1..]) else [fmt[i]] + Params(fmt[i + 1..])
  {
    assert fmt[i..][1..] == fmt[i + 1..];
  }

  lemma AtSpace(fmt: seq<char>, i: nat, n: nat)
    requires At(fmt, i, n) && i < |fmt| && IsSpace(fmt[i])
    ensures At(fmt, i + 1, n)
  {
    assert OpenAt(Key);
    NextParam(fmt, i);
  }

  lemma AtParam(fmt: seq<char>, i: nat, n: nat)
    requires At(fmt, i, n) && i < |fmt| && !IsSpace(fmt[i])
    ensures n < |Params(fmt)| && Params(fmt)[n] == fmt[i] && AllKnown(Params(fmt)[..n])
    ensures IsKnown(fmt[i]) ==> At(fmt, i + 1, n + 1) && AllKnown(Params(fmt)[..n + 1])
    ensures !IsKnown(fmt[i]) ==> !AllKnown(Params(fmt))
  {
    assert OpenAt(Key);
    NextParam(fmt, i);
    Shorter(Params(fmt), n, fmt[i], Params(fmt[i + 1..]));
  }

  /** One more parameter known. */
  lemma Shorter(ps: seq<char>, n: nat, c: char, rest: seq<char>)
    requires n <= |ps| && ps[n..] == [c] + rest && AllKnown(ps[..n])
    ensures n < |ps| && ps[n] == c && ps[n + 1..] == rest && (IsKnown(c) ==> AllKnown(ps[..n + 1]))
  {
    assert ps[n..][0] == c && ps[n..][1..] == rest;
    assert ps[n..][1..] == ps[n + 1..];
    assert ps[..n + 1] == ps[..n] + [ps[n]];
  }

  lemma AtEnd(fmt: seq<char>, n: nat)
    requires At(fmt, |fmt|, n)
    ensures n == |Params(fmt)| && AllKnown(Params(fmt))
  {
    assert OpenAt(Key);
    assert fmt[|fmt|..] == [] && |Params(fmt)[n..]| == |Params(fmt)| - n;
    assert n == |Params(fmt)| ==> Params(fmt)[..n] == Params(fmt);
  }

  /** The wire after n fields. */
  ghost function Wire(fmt: seq<char>, args: seq<Arg>, n: nat): seq<Byte>
    requires Matches(Params(fmt), args) && n <= |Params(fmt)| && AllKnown(Params(fmt)[..n])
  {
    ToBytes(|Params(fmt)|, 4) + Fields(Params(fmt)[..n], args[..n])
  }

  lemma WireStart(fmt: seq<char>, args: seq<Arg>)
    requires Matches(Params(fmt), args)
    ensures Wire(fmt, args, 0) == ToBytes(|Params(fmt)|, 4)
  {
  }

  lemma WireNext(fmt: seq<char>, args: seq<Arg>, n: nat)
    requires Matches(Params(fmt), args) && n < |Params(fmt)| && AllKnown(Params(fmt)[..n]) && AllKnown(Params(fmt)[..n + 1]) && IsKnown(Params(fmt)[n])
    ensures Wire(fmt, args, n + 1) == Wire(fmt, args, n) + Field(Params(fmt)[n], args[n])
  {
    FieldsNext(Params(fmt), args, n);
  }

  lemma WireEnd(fmt: seq<char>, args: seq<Arg>)
    requires Matches(Params(fmt), args) && AllKnown(Params(fmt))
    ensures AllKnown(Params(fmt)[..|Params(fmt)|]) && Wire(fmt, args, |Params(fmt)|) == Encoded(fmt, args)
  {
    assert Params(fmt)[..|Params(fmt)|] == Params(fmt) && args[..|Params(fmt)|] == args;
  }

  /** one_measure. */
  method MeasureOne(c: char, a: Arg) returns (ok: bool, len: nat)
    requires IsKnown(c) ==> Fits(c, a)
    ensures ok <==> IsKnown(c)
    ensures ok ==> len == |Payload(c, a)|
  {
    if Width(c) > 0 {
      return true, Width(c);
    } else if IsText(c) {
      return true, if a.Null? then 0 else |a.chars| + 1;
    }
    return false, 0;
  }

  lemma MeasureNext(fmt: seq<char>, args: seq<Arg>, n: nat, total: nat, len: nat)
    requires Matches(Params(fmt), args) && n < |Params(fmt)| && AllKnown(Params(fmt)[..n]) && AllKnown(Params(fmt)[..n + 1]) && IsKnown(Params(fmt)[n])
    requires total == |Wire(fmt, args, n)| % WRAP && len == |Payload(Params(fmt)[n], args[n])|
    ensures (total + 5 + len) % WRAP == |Wire(fmt, args, n + 1)| % WRAP
  {
    WireNext(fmt, args, n);
    WrappedSum(|Wire(fmt, args, n)|, 5 + len);
  }

  /** ipc_serial_measure_va; the sum is kept in 32 bits. */
  method Measure(fmt: seq<char>, args: seq<Arg>) returns (ok: bool, total: nat)
    requires Matches(Params(fmt), args)
    ensures ok <==> AllKnown(Params(fmt))
    ensures ok ==> total == |Encoded(fmt, args)| % WRAP
  {
    total := 4;
    var i, n := 0, 0;
    AtStart(fmt);
    WireStart(fmt, args);
    while i < |fmt|
      invariant At(fmt, i, n) && AllKnown(Params(fmt)[..n]) && total == |Wire(fmt, args, n)| % WRAP
    {
      if IsSpace(fmt[i]) {
        AtSpace(fmt, i, n);
      } else {
        AtParam(fmt, i, n);
        var known, len := MeasureOne(fmt[i], args[n]);
        if !known {
          return false, 0;
        }
        MeasureNext(fmt, args, n, total, len);
        total := (total + 5 + len) % WRAP;
        n := n + 1;
      }
      i := i + 1;
    }
    AtEnd(fmt, n);
    WireEnd(fmt, args);
    ok := true;
  }

  /** one_write. */
  method WriteField(buf: array<Byte>, off: nat, c: char, a: Arg) returns (ok: bool, next: nat)
    requires off <= buf.Length && (IsKnown(c) ==> Fits(c, a))
    modifies buf
    ensures ok <==> IsKnown(c) && off + |Field(c, a)| <= buf.Length
    ensures ok ==> next == off + |Field(c, a)| && buf[..next] == old(buf[..off]) + Field(c, a)
  {
    next := off;
    if !IsKnown(c) {
      return false, off;
    }
    var body := Payload(c, a);
    if off + 1 + 4 + |body| > buf.Length {
      return false, off;
    }
    var field := [Tag(c)] + ToBytes(|body|, 4) + body;
    var j := 0;
    while j < |field|
      invariant 0 <= j <= |field|
      invariant buf[..off + j] == old(buf[..off]) + field[..j]
    {
      buf[off + j] := field[j];
      j := j + 1;
    }
    assert field[..j] == field;
    return true, off + |field|;
  }

  /** ipc_serial_encode_into_va: succeeds exactly in a buffer of the measured size. */
  method EncodeInto(buf: array<Byte>, fmt: seq<char>, args: seq<Arg>) returns (ok: bool)
    requires Matches(Params(fmt), args) && buf.Length < WRAP
    modifies buf
    ensures ok <==> AllKnown(Params(fmt)) && |Encoded(fmt, args)| == buf.Length
    ensures ok ==> buf[..] == Encoded(fmt, args)
  {
    if buf.Length < 4 {
      return false;
    }
    WriteHead(buf, CountParams(fmt));
    var i, n, off := 0, 0, 4;
    AtStart(fmt);
    WireStart(fmt, args);
    while i < |fmt|
      invariant At(fmt, i, n) && AllKnown(Params(fmt)[..n])
      invariant 4 <= off <= buf.Length && buf[..off] == Wire(fmt, args, n)
    {
      if IsSpace(fmt[i]) {
        AtSpace(fmt, i, n);
      } else {
        AtParam(fmt, i, n);
        var written;
        written, off := WriteField(buf, off, fmt[i], args[n]);
        if !written {
          NoRoom(fmt, args, n, buf.Length);
          return false;
        }
        WireNext(fmt, args, n);
        n := n + 1;
      }
      i := i + 1;
    }
    AtEnd(fmt, n);
    WireEnd(fmt, args);
    assert buf[..buf.Length] == buf[..];
    return off == buf.Length;
  }

  method WriteHead(buf: array<Byte>, count: nat)
    requires buf.Length >= 4
    modifies buf
    ensures buf[..4] == ToBytes(count, 4)
  {
    var head, j := ToBytes(count, 4), 0;
    while j < 4
      invariant 0 <= j <= 4 && buf[..j] == head[..j]
    {
      buf[j] := head[j];
      j := j + 1;
    }
    assert head[..4] == head;
  }

  /** fmt_param_count. */
  function CountParams(fmt: seq<char>): (n: nat)
    ensures n == |Params(fmt)|
  {
    if fmt == [] then 0 else CountParams(fmt[1..]) + if IsSpace(fmt[0]) then 0 else 1
  }

  /** If field n is unknown or does not fit, the whole is or does. */
  lemma NoRoom(fmt: seq<char>, args: seq<Arg>, n: nat, cap: nat)
    requires n < |Params(fmt)| && Matches(Params(fmt), args) && AllKnown(Params(fmt)[..n])
    requires IsKnown(Params(fmt)[n]) ==> |Wire(fmt, args, n)| + |Field(Params(fmt)[n], args[n])| > cap
    ensures AllKnown(Params(fmt)) ==> |Encoded(fmt, args)| > cap
  {
    if AllKnown(Params(fmt)) {
      WireNext(fmt, args, n);
      FieldsPrefix(Params(fmt), args, n + 1);
    }
  }

  lemma {:induction false} FieldsPrefix(ps: seq<char>, args: seq<Arg>, n: nat)
    requires AllKnown(ps) && Matches(ps, args) && n <= |ps|
    ensures |Fields(ps[..n], args[..n])| <= |Fields(ps, args)|
    decreases |ps| - n
  {
    if n < |ps| {
      FieldsNext(ps, args, n);
      FieldsPrefix(ps, args, n + 1);
    } else {
      assert ps[..n] == ps && args[..n] == args;
    }
  }

  /** ipc_serial_decode. */
  method Decode(buf: seq<Byte>, fmt: seq<char>) returns (out: Outcome)
    requires |buf| < WRAP
    ensures out == Decoded(buf, fmt)
  {
    if |buf| < 4 || FromBytes(buf[..4]) != CountParams(fmt) % WRAP {
      return Refused;
    }
    var i: nat, off: nat, args: seq<Arg> := 0, 4, [];
    while i < |fmt|
      invariant 0 <= i <= |fmt| && off < WRAP
      invariant Decoded(buf, fmt) == Prefixed(args, ReadFields(buf, off, Params(fmt[i..])))
    {
      assert fmt[i..][1..] == fmt[i + 1..];
      if !IsSpace(fmt[i]) {
        ghost var rest := Params(fmt[i + 1..]);
        assert Params(fmt[i..])[1..] == rest;
        var r := ReadField(buf, off, fmt[i]);
        if !r.Got? {
          return if r.Bad? then Refused else Stray;
        }
        PrefixedStep(args, r.arg, ReadFields(buf, r.next, rest));
        args, off := args + [r.arg], r.next;
      }
      i := i + 1;
    }
    return if off == |buf| then Done(args) else Refused;
  }

  function Prefixed(args: seq<Arg>, out: Outcome): Outcome { if out.Done? then Done(args + out.args) else out }

  lemma PrefixedStep(args: seq<Arg>, a: Arg, out: Outcome)
    ensures Prefixed(args, Prefixed([a], out)) == Prefixed(args + [a], out)
  {
    if out.Done? {
      assert args + ([a] + out.args) == args + [a] + out.args;
    }
  }
}
