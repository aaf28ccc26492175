/**
 Base 16 printing and parsing of info hashes (section 8 of RFC 4648), as used to key the
 engine's torrent map (bt/engine.go:514-540, 573-597).
 */
module Hex {
  import opened Wrappers

  type Byte = b: nat | b < 256

  /** The content of a file or a blob. */
  type Content = seq<Byte>

  /** A SHA-1 info hash. */
  type Hash = h: seq<Byte> | |h| == 20 witness seq(20, _ => 0)

  function DigitChar(d: nat): char
    requires d < 16
  {
    if d < 10 then '0' + d as char else 'a' + (d - 10) as char
  }

  function DigitValue(c: char): Option<nat> {
    if '0' <= c <= '9' then Some(c as int - '0' as int)
    else if 'a' <= c <= 'f' then Some(c as int - 'a' as int + 10)
    else if 'A' <= c <= 'F' then Some(c as int - 'A' as int + 10)
    else None
  }

  predicate IsDigit(c: char) {
    DigitValue(c).Some?
  }

  predicate AllDigits(s: string) {
    forall i :: 0 <= i < |s| ==> IsDigit(s[i])
  }

  function LowerChar(c: char): char {
    if 'A' <= c <= 'F' then 'a' + (c - 'A') else c
  }

  /** Lower case of a string of hex digits. */
  function Lower(s: string): string {
    seq(|s|, i requires 0 <= i < |s| => LowerChar(s[i]))
  }

  function PrintByte(b: Byte): string {
    [DigitChar(b / 16), DigitChar(b % 16)]
  }

  /** The "%x" rendering of a byte string. */
  function HexString(bs: seq<Byte>): (s: string)
    ensures |s| == 2 * |bs|
  {
    if bs == [] then ""
    else PrintByte(bs[0]) + HexString(bs[1..])
  }

  /** What decoding into a fixed buffer can come to; running past the buffer panics. */
  datatype Decoded = Bytes(bytes: seq<Byte>) | BadHex | Overrun

  /** The loop of Go's hex.Decode over whole pairs of digits, with `room` bytes of buffer left. */
  function DecodePairs(s: string, room: nat): Decoded
    requires |s| % 2 == 0
  {
    if s == "" then Bytes([])
    else
      match (DigitValue(s[0]), DigitValue(s[1]))
      case (Some(hi), Some(lo)) =>
        if room == 0 then Overrun
        else
          (match DecodePairs(s[2..], room - 1)
           case Bytes(rest) => Bytes([hi * 16 + lo] + rest)
           case other => other)
      case _ => BadHex
  }

  datatype Parsed = IsHash(h: Hash) | InvalidHex | InvalidLength | Panics

  /** str2ih: a missing byte is an error of its own, an extra one overruns the 20-byte buffer. */
  function Str2ih(s: string): Parsed {
    if |s| % 2 == 1 then InvalidHex
    else
      match DecodePairs(s, 20)
      case BadHex => InvalidHex
      case Overrun => Panics
      case Bytes(bs) => if |bs| != 20 then InvalidLength else IsHash(bs)
  }

  lemma DigitRoundTrip(d: nat)
    requires d < 16
    ensures DigitValue(DigitChar(d)) == Some(d)
  {
  }

  lemma LowerDigit(c: char)
    requires IsDigit(c)
    ensures DigitValue(c).value < 16 && DigitChar(DigitValue(c).value) == LowerChar(c)
  {
  }

  /** One digit pair read back is the byte printed as the pair's lower case. */
  lemma PrintPair(c: char, d: char)
    requires IsDigit(c) && IsDigit(d)
    ensures var b := DigitValue(c).value * 16 + DigitValue(d).value;
            b < 256 && PrintByte(b) == [LowerChar(c), LowerChar(d)]
  {
    LowerDigit(c);
    LowerDigit(d);
    var b := DigitValue(c).value * 16 + DigitValue(d).value;
    assert b / 16 == DigitValue(c).value && b % 16 == DigitValue(d).value;
  }

  lemma DecodeStep(s: string, room: nat)
    requires |s| % 2 == 0 && s != "" && room > 0
    requires IsDigit(s[0]) && IsDigit(s[1])
    ensures |s[2..]| % 2 == 0
    ensures var rest := DecodePairs(s[2..], room - 1);
            DecodePairs(s, room) ==
              if rest.Bytes? then Bytes([DigitValue(s[0]).value * 16 + DigitValue(s[1]).value] + rest.bytes) else rest
  {
  }

  lemma {:induction false} DecodeHexString(bs: seq<Byte>, room: nat)
    requires |bs| <= room
    ensures DecodePairs(HexString(bs), room) == Bytes(bs)
  {
    if bs == [] {
    } else {
      var s := HexString(bs);
      DigitRoundTrip(bs[0] / 16);
      DigitRoundTrip(bs[0] % 16);
      DecodeHexString(bs[1..], room - 1);
      assert s[0] == DigitChar(bs[0] / 16) && s[1] == DigitChar(bs[0] % 16);
      assert s[2..] == HexString(bs[1..]);
      DecodeStep(s, room);
      assert bs == [bs[0]] + bs[1..];
    }
  }

  lemma DigitsSplit(s: string)
    requires |s| >= 2
    ensures AllDigits(s) <==> IsDigit(s[0]) && IsDigit(s[1]) && AllDigits(s[2..])
  {
    var t := s[2..];
    assert forall i :: 0 <= i < |t| ==> t[i] == s[i + 2];
    assert forall i :: 2 <= i < |s| ==> s[i] == t[i - 2];
  }

  lemma LowerSplit(s: string)
    requires |s| >= 2
    ensures Lower(s) == [LowerChar(s[0]), LowerChar(s[1])] + Lower(s[2..])
  {
  }

  /** Decoding succeeds exactly on digits that fit, and then prints back as their lower case. */
  lemma {:induction false} DecodeAccepts(s: string, room: nat)
    requires |s| % 2 == 0
    ensures DecodePairs(s, room).Bytes? <==> AllDigits(s) && |s| <= 2 * room
    ensures DecodePairs(s, room).Bytes? ==>
              |DecodePairs(s, room).bytes| == |s| / 2 && HexString(DecodePairs(s, room).bytes) == Lower(s)
  {
    if s == "" {
    } else {
      DigitsSplit(s);
      if IsDigit(s[0]) && IsDigit(s[1]) && room > 0 {
        DecodeStep(s, room);
        DecodeAccepts(s[2..], room - 1);
        PrintPair(s[0], s[1]);
        LowerSplit(s);
        var d := DecodePairs(s, room);
        if d.Bytes? {
          assert d.bytes[1..] == DecodePairs(s[2..], room - 1).bytes;
          assert HexString(d.bytes) == PrintByte(d.bytes[0]) + HexString(d.bytes[1..]);
        }
      }
    }
  }

  /** The buffer is overrun exactly by one whole pair of digits beyond the room. */
  lemma {:induction false} DecodeOverruns(s: string, room: nat)
    requires |s| % 2 == 0
    ensures DecodePairs(s, room).Overrun? <==> |s| > 2 * room && AllDigits(s[..2 * room + 2])
  {
    if s == "" {
    } else {
      if room == 0 {
        DigitsSplit(s[..2]);
      } else if IsDigit(s[0]) && IsDigit(s[1]) {
        DecodeStep(s, room);
        DecodeOverruns(s[2..], room - 1);
        if |s| > 2 * room {
          assert s[..2 * room + 2][2..] == s[2..][..2 * room];
          DigitsSplit(s[..2 * room + 2]);
        }
      } else if |s| > 2 * room {
        DigitsSplit(s[..2 * room + 2]);
      }
    }
  }

  /** Parsing the printed form of a hash gives the hash back. */
  lemma HashRoundTrip(h: Hash)
    ensures Str2ih(HexString(h)) == IsHash(h)
  {
    DecodeHexString(h, 20);
  }

  /**
   str2ih accepts exactly the strings of 40 hex digits, in either case, and the accepted hash
   prints as the lower case of its argument; a string of digits longer than that panics.
   */
  lemma Str2ihOutcome(s: string)
    ensures Str2ih(s).IsHash? <==> |s| == 40 && AllDigits(s)
    ensures Str2ih(s).IsHash? ==> HexString(Str2ih(s).h) == Lower(s)
    ensures Str2ih(s).Panics? <==> |s| % 2 == 0 && |s| > 40 && AllDigits(s[..42])
    ensures Str2ih(s).InvalidLength? <==> |s| % 2 == 0 && |s| < 40 && AllDigits(s)
  {
    if |s| % 2 == 0 {
      DecodeAccepts(s, 20);
      DecodeOverruns(s, 20);
    }
  }

  lemma HexStringInjective(g: Hash, h: Hash)
    requires HexString(g) == HexString(h)
    ensures g == h
  {
    HashRoundTrip(g);
    HashRoundTrip(h);
  }
}
